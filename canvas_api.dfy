/**
 * The canvas service: a table of rows keyed by `canvas_id`, read by
 * `GET /canvas`, written by `PUT /canvas` and `POST /new-id` through one
 * insert-or-replace helper. A store failure is an oracle parameter
 * (`storeError`, the error message the store would answer with), the clock
 * is a parameter `now`, and a generated id is a parameter known not to be a
 * key yet. A missing query parameter or string body field is written as "";
 * a missing or falsy `data` is None.
 */
module CanvasApi {
  import opened Wrappers
  import opened Scene

  /** One row: `canvas_id`, nullable `project_id`, nullable `data`, `updated_at`. */
  datatype Row = Row(canvasId: string, projectId: Option<string>, data: Option<Scene>, updatedAt: nat)

  type Table = map<string, Row>

  datatype Body =
    | ErrorBody(message: string)
    | RowBody(row: Row)
    | ScaffoldBody(canvasId: string, data: Scene)
    | OkBody
    | NewIdBody(canvasId: string)

  datatype Response = Response(status: nat, body: Body)

  /** The fields of a `PUT /canvas` body; `data` is None when falsy. */
  datatype PutRequest = PutRequest(canvasId: string, projectId: string, data: Option<Scene>)

  /** What a writing handler leaves behind: the table and the response. */
  datatype Outcome = Outcome(table: Table, response: Response)

  /** Every row sits under its own `canvas_id`. */
  ghost predicate Keyed(t: Table)
  {
    forall k :: k in t ==> t[k].canvasId == k
  }

  /** `upsertCanvas`: insert or replace the row keyed by its id, stamped with `now`. */
  function Upsert(t: Table, canvasId: string, projectId: Option<string>, data: Option<Scene>, now: nat): (r: Table)
    ensures r.Keys == t.Keys + {canvasId}
    ensures r[canvasId] == Row(canvasId, projectId, data, now)
    ensures forall k :: k in t && k != canvasId ==> r[k] == t[k]
    ensures Keyed(t) ==> Keyed(r)
  {
    t[canvasId := Row(canvasId, projectId, data, now)]
  }

  /** `projectId || null` */
  function StoredProjectId(projectId: string): (r: Option<string>)
    ensures r.None? <==> projectId == ""
    ensures r.Some? ==> r.value == projectId
  {
    if projectId == "" then None else Some(projectId)
  }

  /** `data || { elements: [], appState: {}, files: {} }` */
  function StoredData(data: Option<Scene>): (r: Scene)
    ensures data.Some? ==> r == data.value
    ensures data.None? ==> r == Scaffold() && !SceneHasContent(r)
  {
    ScaffoldIsEmpty();
    if data.Some? then data.value else Scaffold()
  }

  /** `GET /canvas?canvasId=...` */
  function Get(t: Table, canvasId: string, storeError: Option<string>): (r: Response)
    // a missing id is rejected before the store is consulted
    ensures canvasId == "" ==> r == Response(400, ErrorBody("canvasId required"))
    ensures canvasId != "" && storeError.Some? ==> r == Response(500, ErrorBody(storeError.value))
    // an existing row comes back as stored, even one whose data is null
    ensures canvasId != "" && storeError.None? && canvasId in t ==> r == Response(200, RowBody(t[canvasId]))
    // a miss answers with the empty scaffold synthesised in memory
    ensures canvasId != "" && storeError.None? && canvasId !in t ==>
              r == Response(200, ScaffoldBody(canvasId, Scaffold()))
    ensures r.status == 200 ==> canvasId != "" && storeError.None?
  {
    if canvasId == "" then Response(400, ErrorBody("canvasId required"))
    else if storeError.Some? then Response(500, ErrorBody(storeError.value))
    else if canvasId in t then Response(200, RowBody(t[canvasId]))
    else Response(200, ScaffoldBody(canvasId, Scaffold()))
  }

  /** `PUT /canvas` */
  function Put(t: Table, req: PutRequest, now: nat, storeError: Option<string>): (r: Outcome)
    ensures req.canvasId == "" ==> r == Outcome(t, Response(400, ErrorBody("canvasId required")))
    ensures req.canvasId != "" && storeError.Some? ==> r == Outcome(t, Response(500, ErrorBody(storeError.value)))
    ensures req.canvasId != "" && storeError.None? ==>
              && r.response == Response(200, OkBody)
              && r.table == Upsert(t, req.canvasId, StoredProjectId(req.projectId), Some(StoredData(req.data)), now)
    // at most the row keyed by the request's id changes
    ensures forall k :: k != req.canvasId ==> (k in r.table <==> k in t)
    ensures forall k :: k in t && k != req.canvasId ==> r.table[k] == t[k]
    ensures Keyed(t) ==> Keyed(r.table)
  {
    if req.canvasId == "" then Outcome(t, Response(400, ErrorBody("canvasId required")))
    else if storeError.Some? then Outcome(t, Response(500, ErrorBody(storeError.value)))
    else Outcome(Upsert(t, req.canvasId, StoredProjectId(req.projectId), Some(StoredData(req.data)), now),
                 Response(200, OkBody))
  }

  /**
   * `POST /new-id`: the upsert's error is not inspected, so the fresh id is
   * answered with 200 whether or not its row was written.
   */
  function NewId(t: Table, freshId: string, now: nat, storeError: Option<string>): (r: Outcome)
    requires freshId !in t
    ensures r.response == Response(200, NewIdBody(freshId))
    ensures storeError.Some? ==> r.table == t
    ensures storeError.None? ==> r.table == t[freshId := Row(freshId, None, None, now)]
    ensures |r.table| == |t| + (if storeError.None? then 1 else 0)
  {
    if storeError.None? then Outcome(Upsert(t, freshId, None, None, now), Response(200, NewIdBody(freshId)))
    else Outcome(t, Response(200, NewIdBody(freshId)))
  }

  /** Round trip: after a successful `PUT` with data, `GET` returns that data and the stored project id. */
  lemma PutThenGet(t: Table, req: PutRequest, now: nat)
    requires req.canvasId != "" && req.data.Some?
    ensures Get(Put(t, req, now, None).table, req.canvasId, None) ==
            Response(200, RowBody(Row(req.canvasId, StoredProjectId(req.projectId), req.data, now)))
  {
  }

  /** Replaying a `PUT` changes only the `updated_at` of its row. */
  lemma PutReplay(t: Table, req: PutRequest, first: nat, second: nat)
    requires req.canvasId != ""
    ensures var once := Put(t, req, first, None).table;
            var twice := Put(once, req, second, None).table;
            && twice == once[req.canvasId := once[req.canvasId].(updatedAt := second)]
            && twice == Put(t, req, second, None).table
  {
  }

  /** A `GET` after a successful `/new-id` returns the pre-created row with null data, not the scaffold. */
  lemma NewIdThenGet(t: Table, freshId: string, now: nat)
    requires freshId !in t && freshId != ""
    ensures Get(NewId(t, freshId, now, None).table, freshId, None) ==
            Response(200, RowBody(Row(freshId, None, None, now)))
  {
  }

  /** The `canvases` table of the hosted store, updated in place by the handlers. */
  class CanvasStore {
    var rows: Table

    ghost predicate Valid()
      reads this
    {
      Keyed(rows)
    }

    constructor (initial: Table)
      requires Keyed(initial)
      ensures rows == initial && Valid()
    {
      rows := initial;
    }

    /** `upsertCanvas`: the store answers with `storeError`, writing nothing when it is set. */
    method UpsertCanvas(canvasId: string, projectId: Option<string>, data: Option<Scene>, now: nat,
                        storeError: Option<string>) returns (error: Option<string>)
      requires Valid()
      modifies this
      ensures Valid() && error == storeError
      ensures rows == if storeError.None? then Upsert(old(rows), canvasId, projectId, data, now) else old(rows)
    {
      error := storeError;
      if error.None? {
        rows := rows[canvasId := Row(canvasId, projectId, data, now)];
      }
    }

    /** `GET /canvas`: reads the table and changes nothing. */
    method HandleGet(canvasId: string, storeError: Option<string>) returns (resp: Response)
      ensures resp == Get(rows, canvasId, storeError)
      ensures resp.body.RowBody? ==> canvasId in rows && resp.body.row == rows[canvasId]
      ensures resp.body.ScaffoldBody? ==> canvasId !in rows && !SceneHasContent(resp.body.data)
    {
      if canvasId == "" {
        return Response(400, ErrorBody("canvasId required"));
      }
      if storeError.Some? {
        return Response(500, ErrorBody(storeError.value));
      }
      if canvasId in rows {
        resp := Response(200, RowBody(rows[canvasId]));
      } else {
        ScaffoldIsEmpty();
        resp := Response(200, ScaffoldBody(canvasId, Scaffold()));
      }
    }

    /** `PUT /canvas` */
    method HandlePut(req: PutRequest, now: nat, storeError: Option<string>) returns (resp: Response)
      requires Valid()
      modifies this
      ensures Valid()
      ensures Outcome(rows, resp) == Put(old(rows), req, now, storeError)
    {
      if req.canvasId == "" {
        return Response(400, ErrorBody("canvasId required"));
      }
      var projectId := if req.projectId == "" then None else Some(req.projectId);
      var data := if req.data.Some? then req.data.value else Scaffold();
      var error := UpsertCanvas(req.canvasId, projectId, Some(data), now, storeError);
      if error.Some? {
        return Response(500, ErrorBody(error.value));
      }
      resp := Response(200, OkBody);
    }

    /** `POST /new-id` with `freshId` as the generated identifier. */
    method HandleNewId(freshId: string, now: nat, storeError: Option<string>) returns (resp: Response)
      requires Valid() && freshId !in rows
      modifies this
      ensures Valid()
      ensures Outcome(rows, resp) == NewId(old(rows), freshId, now, storeError)
    {
      var _ := UpsertCanvas(freshId, None, None, now, storeError);
      resp := Response(200, NewIdBody(freshId));
    }
  }
}
