# Canvas persistence: save gate and canvas table

A verified model of the persistence layer of a browser whiteboard. The
drawing widget reports every edit as a change notification
`(elements, appState, files)`. The client decides which notifications become
saves. A small HTTP service keeps one row per canvas id in a table.

Modules:

- `Wrappers`: an `Option` for JavaScript's null and undefined.
- `Scene`: the scene a notification carries and the table stores. It holds the
  element array (a `null` entry is possible), the opaque `appState` mapping and
  the file map. It also holds the content classifier and the empty scaffold
  `{elements: [], appState: {}, files: {}}`.
- `ClientConfig`: the configuration the current client derives once at page
  load. It covers the canvas and project ids from the query string, the API
  base URL from two environment values, and the optional bearer header.
- `SyncController`: the current client (`apps/web/src/App.jsx`). The
  session state holds the two one-way guards (`hasAppliedInitial`, the gate,
  and `hasSavedNonEmpty`, the sticky "content has existed" flag). It also
  holds the loaded `initialData`, the error text, the debounce's single
  pending slot, the history of scheduled payloads and the history of issued
  save requests. Each step (load, animation frame, change notification, end
  of the quiet interval) is a function on the state. The `Controller` class
  performs the same steps in place, and its methods are proved equal to those
  functions and to keep the anti-clobber invariant.
- `LegacySync`: the earlier client (`app/web/src/App.jsx`). It has no gate and
  no sticky flag. A notification is dropped only when `elements` is falsy, and
  the files are always blanked.
- `CanvasApi`: the service (`apps/api/server.js`). The `canvases` table is
  modelled as a `map` from canvas id to row. `Get`, `Put` and `NewId` are the
  three handlers as functions, and `CanvasStore` is the table as a class
  whose handler methods are proved equal to them.
- `EndToEnd`: a client session talking to the service. HTTP and JSON act as
  the identity, and a response is ok exactly when its status is 2xx.

The anti-clobber rule holds of the scheduled payloads: no empty payload is
scheduled before a content-bearing one. The sent requests satisfy it in this
form: every sent payload was scheduled, and an empty one was scheduled after a
content-bearing one. A literal "no empty request before a non-empty request"
does not hold. The debounce keeps only the latest payload, so drawing and then
erasing within one quiet interval sends just the empty scene. That is a
deletion after content existed, which the sticky flag exists to let through.

Environment inputs become parameters:

- What the load's `fetch` produced becomes a `LoadOutcome`.
- The store's answer becomes `storeError`, the error message the store would
  return, or None.
- The clock becomes `now`.
- A generated uuid becomes `freshId`, with the requirement that it is not yet
  a key.
- A missing query parameter, environment value or string body field is
  written as `""`, because the source only tests them with `||` or `!`. A
  missing or falsy `data` body field is `None`.

The code behaves as follows in places a reader might not expect:

- A failed load in the current client only sets the error text. It does not
  fall back to the scaffold.
- `appState` is saved as received, with no stripping of collaborator state.
- The service has no bearer-token check.
- `POST /new-id` answers 200 with the new id even when its upsert failed.
  The service ignores that error, so the answer says nothing about whether a
  row was written.

## Model

| member | source | states |
|---|---|---|
| `Scene.NonDeleted` | apps/web/src/App.jsx:78 | the filtered list keeps exactly the live entries (a null entry counts as live) and is no longer than the input |
| `Scene.HasContentIff` | apps/web/src/App.jsx:77-82 | a change has content exactly when some array entry is not flagged deleted or the file map has a key; a non-array `elements` contributes nothing |
| `Scene.Scaffold` | apps/api/server.js:57 | the scaffold has an empty element array, an empty appState and an empty file map |
| `Scene.ScaffoldIsEmpty` | apps/api/server.js:57 | the scaffold is classified as having no content |
| `ClientConfig.ProjectId` | apps/web/src/App.jsx:8 | the project id is the projectId parameter, else the recordId parameter, else empty; empty exactly when both are |
| `ClientConfig.ApiBase` | apps/web/src/App.jsx:11-14 | the base is empty exactly when both env values are; the explicit base wins over the host; a value without an "http" prefix gets "https://"; a non-empty base always starts with "http" |
| `ClientConfig.Authorization` | apps/web/src/App.jsx:17-18 | the Authorization header is present exactly when the secret is non-empty, and is then "Bearer " followed by the secret |
| `SyncController.Payload` | apps/web/src/App.jsx:77-91 | the payload keeps every array entry including deleted ones, passes appState through, substitutes `{}` for missing files, and has content exactly when the change has |
| `SyncController.Load` | apps/web/src/App.jsx:31-51 | without an id nothing happens; without a base URL only the error is set; a failed or non-ok fetch sets the load error; only an ok response sets `initialData` and requests the frame that opens the gate; loading never schedules or sends |
| `SyncController.OpenGate` | apps/web/src/App.jsx:44-45 | the frame opens the gate exactly when a successful load requested it; nothing else changes |
| `SyncController.HandleChange` | apps/web/src/App.jsx:72-93 | before the gate opens every notification is dropped; an empty notification is dropped exactly while the sticky flag is false; a scheduled payload replaces the pending one; the flag becomes true on the first ungated content-bearing notification and is never reset |
| `SyncController.Flush` | apps/web/src/App.jsx:54-69 | the quiet interval empties the slot and issues `{canvasId, projectId, data}` with the last payload, unless the base URL or the id is empty |
| `SyncController.InitialIsAntiClobber` | apps/web/src/App.jsx:27-28 | the fresh session satisfies the anti-clobber invariant |
| `SyncController.HandleChangeKeepsAntiClobber` | apps/web/src/App.jsx:84-92 | a notification keeps the invariant: no empty payload is scheduled before a content-bearing one, the flag says whether content was scheduled, the slot holds the latest payload |
| `SyncController.FlushKeepsAntiClobber` | apps/web/src/App.jsx:56-63 | the end of the quiet interval keeps the invariant: every sent payload is one that was scheduled |
| `SyncController.RunKeepsAntiClobber` | apps/web/src/App.jsx:72-93 | every sequence of notifications, frames and quiet-interval ends keeps the invariant |
| `SyncController.EmptySaveFollowsContent` | apps/web/src/App.jsx:84-92 | in any session, an empty payload that is sent was scheduled after a content-bearing payload |
| `SyncController.DrawThenEraseSendsOnlyEmpty` | apps/web/src/App.jsx:54-92 | after a successful load, drawing and erasing within one quiet interval sends exactly one request, and it carries the empty scene |
| `SyncController.RunIsMonotone` | apps/web/src/App.jsx:27-28 | the gate and the sticky flag are one-way, and the scheduled and sent histories only grow |
| `SyncController.ClosedGateStaysClosed` | apps/web/src/App.jsx:74 | while the gate is closed and no frame is pending, no event opens it, nothing is scheduled and, with an empty slot, nothing is sent |
| `SyncController.FailedLoadNeverSaves` | apps/web/src/App.jsx:33-48 | with no id, no base URL, or a failed or non-ok fetch, the gate never opens and no save is ever scheduled or sent |
| `SyncController.BurstKeepsLast` | apps/web/src/App.jsx:54-69 | a burst of ungated notifications, after content existed or starting with a content-bearing one, leaves only the last payload pending and sends nothing |
| `SyncController.Coalescing` | apps/web/src/App.jsx:54-69 | N ungated notifications (after content existed, or the first with content, as on a fresh canvas) followed by one quiet-interval end issue exactly one save, carrying the last payload, with a base URL and an id |
| `SyncController.DeletionIsSaved` | apps/web/src/App.jsx:84-92 | once content was saved, a deletion back to empty is saved too |
| `SyncController.Controller.constructor` | apps/web/src/App.jsx:23-28 | a new controller starts with both guards false, nothing loaded, pending, scheduled or sent |
| `SyncController.Controller.LoadCanvas` | apps/web/src/App.jsx:31-51 | the mount effect updates the fields as `Load` does and keeps the invariant |
| `SyncController.Controller.OnAnimationFrame` | apps/web/src/App.jsx:44-45 | the frame callback updates the fields as `OpenGate` does and keeps the invariant |
| `SyncController.Controller.OnChange` | apps/web/src/App.jsx:72-93 | `handleChange` updates the guards and the pending slot as `HandleChange` does and keeps the invariant |
| `SyncController.Controller.OnDebounceElapsed` | apps/web/src/App.jsx:56-67 | the debounced save body updates the slot and the sent log as `Flush` does and keeps the invariant |
| `LegacySync.LegacyPayload` | app/web/src/App.jsx:34-37 | a notification is dropped exactly when `elements` is falsy; otherwise elements and appState pass through unchanged and files are always `{}` |
| `LegacySync.LegacySchedulesEmptyScene` | app/web/src/App.jsx:34-37 | an empty element list is scheduled as an empty scene by the earlier client, while the gated controller, on a fresh session before any content, drops it even with its gate open |
| `LegacySync.LegacyController.constructor` | app/web/src/App.jsx:11-12 | a new controller has no initial data, nothing pending and nothing sent |
| `LegacySync.LegacyController.LoadCanvas` | app/web/src/App.jsx:15-21 | skipped without an id; only an ok response sets `initialData` to the body's data or null; a non-ok or failed fetch leaves it unchanged |
| `LegacySync.LegacyController.OnChange` | app/web/src/App.jsx:34-37 | a falsy `elements` leaves the slot unchanged; any other notification replaces the pending payload with `LegacyPayload` |
| `LegacySync.LegacyController.OnDebounceElapsed` | app/web/src/App.jsx:23-32 | the save body always issues `{canvasId, projectId, data}` with the pending payload, with no guard on the base URL or the id |
| `CanvasApi.Upsert` | apps/api/server.js:21-30 | exactly the row keyed by the id is inserted or replaced and stamped with `now`; every other row is unchanged; rows stay keyed by their own id |
| `CanvasApi.StoredProjectId` | apps/api/server.js:68 | the stored project id is null exactly when the request's is empty |
| `CanvasApi.StoredData` | apps/api/server.js:69 | missing data is stored as the empty scaffold; present data as sent |
| `CanvasApi.Get` | apps/api/server.js:43-59 | a missing id gives 400 whatever the store would say; a store error gives 500 with its message; an existing row comes back unchanged, even one with null data; a miss gives the scaffold for that id; 200 only on those two paths |
| `CanvasApi.Put` | apps/api/server.js:62-74 | a missing id gives 400 with the table unchanged; a store error gives 500 with the table unchanged; otherwise `{ok: true}` and the row is upserted with the defaulted project id and data; no other row changes |
| `CanvasApi.NewId` | apps/api/server.js:36-40 | answers 200 with the fresh id; adds one row with null project id and null data unless the store fails, in which case the table is unchanged |
| `CanvasApi.PutThenGet` | apps/api/server.js:43-74 | after a successful PUT with data D, GET returns a row with data D and the stored project id |
| `CanvasApi.PutReplay` | apps/api/server.js:21-29 | replaying a PUT changes only the `updated_at` of its row, and leaves the table as one PUT at the later time would |
| `CanvasApi.NewIdThenGet` | apps/api/server.js:36-59 | GET after `/new-id` returns the pre-created row with null data, not the scaffold |
| `CanvasApi.CanvasStore.constructor` | apps/api/server.js:15-18 | the store starts from a table whose rows are keyed by their own id |
| `CanvasApi.CanvasStore.UpsertCanvas` | apps/api/server.js:21-30 | the table is upserted when the store succeeds and unchanged when it fails; the store's error is returned |
| `CanvasApi.CanvasStore.HandleGet` | apps/api/server.js:43-59 | answers as `Get` on the current table and changes nothing; a row answer is the stored row; a scaffold answer means there is no row and carries no content |
| `CanvasApi.CanvasStore.HandlePut` | apps/api/server.js:62-74 | the new table and the answer are those of `Put` |
| `CanvasApi.CanvasStore.HandleNewId` | apps/api/server.js:36-40 | the new table and the answer are those of `NewId` |
| `EndToEnd.AsLoadOutcome` | apps/web/src/App.jsx:36-42 | the client's load is ok exactly on a 2xx status and sees the row's data, the scaffold, or null |
| `EndToEnd.FirstShapeReachesStore` | apps/web/src/App.jsx:31-93 | loading a missing id yields the scaffold; a hydration notification before the gate opens is dropped; one live shape followed by the quiet interval issues exactly one save; after the PUT, GET returns that shape |
| `EndToEnd.EmptyFirstPaintNeverSaved` | apps/web/src/App.jsx:71-88 | whatever the load produced, an empty notification right after the gate opens schedules and sends nothing |

## Left out

- React rendering, the error banner and the widget itself. The widget is only
  the source of change notifications.
- The 15-second thumbnail export in both clients. It is a timer-driven library
  call whose result is discarded.
- Debounce and animation-frame timing (1000 ms and 1200 ms). The quiet
  interval's end and the frame callback are explicit events, and events are
  handled one at a time.
- Concurrent or out-of-order completion of save requests. The model is
  sequential.
- `fetch`, client-side status codes and JSON parsing and serialising. The
  load sees an outcome with an ok flag and the body's `data`, and a scene
  travels over the wire unchanged.
- The save request's outcome. A network failure is caught and only logged,
  so it changes no client state and the model has no parameter for it. The
  sent log records the requests issued.
- Request headers, including the bearer header. The service does not check it.
- Request addresses, built from the base URL, in both clients. The earlier
  client's URL without a base is a relative `/canvas` path. The model records
  the request and does not model where it goes.
- Logging with `console.error` and `console.log`.
- Express wiring, CORS, the 50 MB body limit, `app.listen` and `PORT`,
  `GET /health`, and the Supabase client. The table is a map, and a store
  failure is a parameter.
- uuid generation. The generated id is a parameter that is not yet a key.
- JSON values of shapes other than the modelled ones: `files` that is truthy
  but not an object, an `isDeleted` that is truthy but not boolean, and
  `canvasId` values that are not strings.
