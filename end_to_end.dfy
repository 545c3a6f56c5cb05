/**
 * The client and the service together: the client's load reads what
 * `GET /canvas` answers, and every save request it issues is a `PUT /canvas`.
 * HTTP and JSON are identity here: a response is ok exactly when its status
 * is 2xx, and the client sees the body's `data` field.
 */
module EndToEnd {
  import opened Wrappers
  import opened Scene
  import opened ClientConfig
  import opened SyncController
  import opened CanvasApi

  /** What the client's `fetch` and `json?.data || null` make of a service response. */
  function AsLoadOutcome(resp: Response): (o: LoadOutcome)
    ensures o.HttpResponse? && (o.ok <==> 200 <= resp.status < 300)
    ensures resp.body.RowBody? ==> o.data == resp.body.row.data
    ensures resp.body.ScaffoldBody? ==> o.data == Some(resp.body.data)
    ensures !resp.body.RowBody? && !resp.body.ScaffoldBody? ==> o.data.None?
  {
    var data := match resp.body
      case RowBody(row) => row.data
      case ScaffoldBody(_, scene) => Some(scene)
      case _ => None;
    HttpResponse(200 <= resp.status < 300, data)
  }

  /** The `PUT /canvas` request a save body becomes. */
  function AsPutRequest(b: SaveBody): (req: PutRequest)
    ensures req.canvasId == b.canvasId && req.projectId == b.projectId && req.data == Some(b.data)
  {
    PutRequest(b.canvasId, b.projectId, Some(b.data))
  }

  /**
   * The first drawing on a new canvas: the client loads an id with no row and
   * gets the scaffold; the widget's hydration notification arrives while the
   * gate is closed and is dropped; the frame opens the gate; one live shape is
   * drawn; the quiet interval ends. Exactly one save is issued, and after the
   * service applies it, `GET` returns that shape.
   */
  lemma FirstShapeReachesStore(t: Table, cfg: SessionConfig, shape: Element, appState: AppState, now: nat)
    requires SaveEnabled(cfg) && cfg.canvasId !in t
    requires IsLive(shape)
    ensures var loaded := Load(cfg, Initial(), AsLoadOutcome(Get(t, cfg.canvasId, None)));
            var scene := Scene(Items([shape]), appState, Some(map[]));
            var events := [Changed(Change(Items([]), map[], Some(map[]))), AnimationFrame,
                           Changed(Change(Items([shape]), appState, None)), DebounceElapsed];
            var s := Run(cfg, loaded, events);
            && loaded.initialData == Some(Scaffold())
            && s.sent == [SaveBody(cfg.canvasId, cfg.projectId, scene)]
            && Get(Put(t, AsPutRequest(s.sent[0]), now, None).table, cfg.canvasId, None) ==
               Response(200, RowBody(Row(cfg.canvasId, StoredProjectId(cfg.projectId), Some(scene), now)))
  {
    var loaded := Load(cfg, Initial(), AsLoadOutcome(Get(t, cfg.canvasId, None)));
    var hydration := Change(Items([]), map[], Some(map[]));
    var drawing := Change(Items([shape]), appState, None);
    var events := [Changed(hydration), AnimationFrame, Changed(drawing), DebounceElapsed];
    var s1 := HandleChange(loaded, hydration);
    var s2 := OpenGate(s1);
    var s3 := HandleChange(s2, drawing);
    var s4 := Flush(cfg, s3);
    assert s1 == loaded;
    assert shape in NonDeleted([shape]);
    assert Run(cfg, loaded, events) == Run(cfg, s1, events[1..]);
    assert Run(cfg, s1, events[1..]) == Run(cfg, s2, events[2..]);
    assert Run(cfg, s2, events[2..]) == Run(cfg, s3, events[3..]);
    assert Run(cfg, s3, events[3..]) == Run(cfg, s4, []);
  }

  /**
   * A stored canvas is never blanked by its own reload: when the gate opens
   * and the widget reports an empty scene before its state is hydrated,
   * nothing is scheduled and so nothing is sent.
   */
  lemma EmptyFirstPaintNeverSaved(cfg: SessionConfig, o: LoadOutcome, c: Change)
    requires !ChangeHasContent(c)
    ensures var s := Run(cfg, Load(cfg, Initial(), o), [AnimationFrame, Changed(c), DebounceElapsed]);
            s.scheduled == [] && s.sent == [] && !s.hasSavedNonEmpty
  {
    var evs := [AnimationFrame, Changed(c), DebounceElapsed];
    var s0 := Load(cfg, Initial(), o);
    assert Run(cfg, s0, evs) == Run(cfg, OpenGate(s0), evs[1..]);
    var s2 := HandleChange(OpenGate(s0), c);
    assert Run(cfg, OpenGate(s0), evs[1..]) == Run(cfg, s2, evs[2..]);
    assert Run(cfg, s2, evs[2..]) == Run(cfg, Flush(cfg, s2), []);
  }
}
