/**
 * The save gate of the current client: the initial load, the two one-way
 * guards `hasAppliedInitial` and `hasSavedNonEmpty`, the change handler and
 * the trailing-edge debounced save.
 *
 * The debounce is a single pending slot that every scheduled payload replaces;
 * `DebounceElapsed` is the moment the quiet interval ends and the pending
 * payload is handed to the save body. `AnimationFrame` is the frame callback
 * that the load requests. Each step is a function on `Session`; the
 * `Controller` class performs the same steps in place.
 */
module SyncController {
  import opened Wrappers
  import opened Scene
  import opened ClientConfig

  /** One `onChange(elements, appState, files)` notification of the widget. */
  datatype Change = Change(elements: Elements, appState: AppState, files: Option<FileMap>)

  /**
   * What the load's `fetch` produced: a rejected promise (network failure or
   * an unparsable body), or a response with its `ok` flag and the body's
   * `data` field (`json?.data || null`).
   */
  datatype LoadOutcome = NetworkFailure | HttpResponse(ok: bool, data: Option<Scene>)

  /** The JSON body of `PUT /canvas`. */
  datatype SaveBody = SaveBody(canvasId: string, projectId: string, data: Scene)

  /**
   * The controller's state. `scheduled` is the history of payloads handed to
   * the debounced save, oldest first; `sent` is the history of save requests
   * issued, oldest first.
   */
  datatype Session = Session(
    hasAppliedInitial: bool,
    framePending: bool,
    hasSavedNonEmpty: bool,
    initialData: Option<Scene>,
    error: string,
    pending: Option<Scene>,
    scheduled: seq<Scene>,
    sent: seq<SaveBody>)

  datatype Event = Changed(change: Change) | AnimationFrame | DebounceElapsed

  function Initial(): Session
  {
    Session(false, false, false, None, "", None, [], [])
  }

  /** The load reaches the success path: an id, a base URL and an ok response. */
  predicate LoadSucceeds(cfg: SessionConfig, o: LoadOutcome)
  {
    cfg.canvasId != "" && cfg.apiBase != "" && o.HttpResponse? && o.ok
  }

  /** The debounced save body issues a request only with a base URL and an id. */
  predicate SaveEnabled(cfg: SessionConfig)
  {
    cfg.apiBase != "" && cfg.canvasId != ""
  }

  predicate ChangeHasContent(c: Change)
  {
    HasContent(c.elements, c.files)
  }

  /** `{elements: els, appState, files: fileMap}` */
  function Payload(c: Change): (p: Scene)
    ensures p.elements == Items(ElementList(c.elements))
    ensures p.appState == c.appState
    ensures p.files == Some(FilesOrEmpty(c.files))
    ensures SceneHasContent(p) <==> ChangeHasContent(c)
  {
    Scene(Items(ElementList(c.elements)), c.appState, Some(FilesOrEmpty(c.files)))
  }

  /** The load effect: skipped without an id, an error without a base, else one fetch. */
  function Load(cfg: SessionConfig, s: Session, o: LoadOutcome): (r: Session)
    ensures r.hasAppliedInitial == s.hasAppliedInitial
    ensures r.hasSavedNonEmpty == s.hasSavedNonEmpty
    ensures r.pending == s.pending && r.scheduled == s.scheduled && r.sent == s.sent
    ensures r.framePending <==> s.framePending || LoadSucceeds(cfg, o)
    ensures LoadSucceeds(cfg, o) ==> r.initialData == o.data && r.error == s.error
    ensures !LoadSucceeds(cfg, o) ==> r.initialData == s.initialData
    ensures cfg.canvasId == "" ==> r == s
    ensures cfg.canvasId != "" && cfg.apiBase == "" ==> r.error == "Missing API base URL"
    ensures cfg.canvasId != "" && cfg.apiBase != "" && !LoadSucceeds(cfg, o) ==>
              r.error == "Failed to load canvas."
  {
    if cfg.canvasId == "" then s
    else if cfg.apiBase == "" then s.(error := "Missing API base URL")
    else match o
      case HttpResponse(true, data) => s.(initialData := data, framePending := true)
      case _ => s.(error := "Failed to load canvas.")
  }

  /** The frame callback requested by a successful load opens the gate. */
  function OpenGate(s: Session): (r: Session)
    ensures r.hasAppliedInitial <==> s.hasAppliedInitial || s.framePending
    ensures !r.framePending
    ensures r.hasSavedNonEmpty == s.hasSavedNonEmpty && r.initialData == s.initialData
    ensures r.error == s.error
    ensures r.pending == s.pending && r.scheduled == s.scheduled && r.sent == s.sent
  {
    if s.framePending then s.(hasAppliedInitial := true, framePending := false) else s
  }

  /** `handleChange` */
  function HandleChange(s: Session, c: Change): (r: Session)
    // before the gate opens, every notification is dropped
    ensures !s.hasAppliedInitial ==> r == s
    // an empty notification is dropped exactly while the sticky flag is false
    ensures s.hasAppliedInitial && !ChangeHasContent(c) ==> (r == s <==> !s.hasSavedNonEmpty)
    // a scheduled payload replaces the pending one
    ensures r != s ==> r.pending == Some(Payload(c)) && r.scheduled == s.scheduled + [Payload(c)]
    ensures s.hasAppliedInitial && (ChangeHasContent(c) || s.hasSavedNonEmpty) ==>
              r.pending == Some(Payload(c)) && r.scheduled == s.scheduled + [Payload(c)]
    // the sticky flag is set by the first ungated content-bearing notification and never reset
    ensures r.hasSavedNonEmpty <==> s.hasSavedNonEmpty || (s.hasAppliedInitial && ChangeHasContent(c))
    ensures r.hasAppliedInitial == s.hasAppliedInitial && r.framePending == s.framePending
    ensures r.sent == s.sent && r.initialData == s.initialData && r.error == s.error
  {
    if !s.hasAppliedInitial then s
    else
      var hasContent := ChangeHasContent(c);
      if !hasContent && !s.hasSavedNonEmpty then s
      else
        var p := Payload(c);
        assert |s.scheduled + [p]| != |s.scheduled|;
        s.(hasSavedNonEmpty := s.hasSavedNonEmpty || hasContent,
           pending := Some(p), scheduled := s.scheduled + [p])
  }

  /** The trailing edge of the debounce: the pending payload, if any, goes to the save body. */
  function Flush(cfg: SessionConfig, s: Session): (r: Session)
    ensures r.pending == None
    ensures r.sent == s.sent +
      (if s.pending.Some? && SaveEnabled(cfg) then [SaveBody(cfg.canvasId, cfg.projectId, s.pending.value)] else [])
    ensures r.hasAppliedInitial == s.hasAppliedInitial && r.framePending == s.framePending
    ensures r.hasSavedNonEmpty == s.hasSavedNonEmpty && r.scheduled == s.scheduled
    ensures r.initialData == s.initialData && r.error == s.error
  {
    match s.pending
    case None => s
    case Some(p) =>
      if SaveEnabled(cfg) then s.(pending := None, sent := s.sent + [SaveBody(cfg.canvasId, cfg.projectId, p)])
      else s.(pending := None)
  }

  function Step(cfg: SessionConfig, s: Session, e: Event): Session
  {
    match e
    case Changed(c) => HandleChange(s, c)
    case AnimationFrame => OpenGate(s)
    case DebounceElapsed => Flush(cfg, s)
  }

  function Run(cfg: SessionConfig, s: Session, events: seq<Event>): Session
    decreases |events|
  {
    if events == [] then s else Run(cfg, Step(cfg, s, events[0]), events[1..])
  }

  /**
   * The anti-clobber invariant: every empty scheduled payload comes after a
   * content-bearing one; the sticky flag says whether any content-bearing
   * payload was scheduled; the pending slot holds the latest scheduled
   * payload; every sent payload is one that was scheduled.
   */
  ghost predicate AntiClobber(s: Session)
  {
    && (forall i :: 0 <= i < |s.scheduled| && !SceneHasContent(s.scheduled[i]) ==>
          exists j :: 0 <= j < i && SceneHasContent(s.scheduled[j]))
    && (s.hasSavedNonEmpty <==> exists j :: 0 <= j < |s.scheduled| && SceneHasContent(s.scheduled[j]))
    && (s.pending.Some? ==> |s.scheduled| > 0 && s.pending.value == s.scheduled[|s.scheduled| - 1])
    && (forall i :: 0 <= i < |s.sent| ==> s.sent[i].data in s.scheduled)
  }

  lemma InitialIsAntiClobber()
    ensures AntiClobber(Initial())
  {
  }

  lemma HandleChangeKeepsAntiClobber(s: Session, c: Change)
    requires AntiClobber(s)
    ensures AntiClobber(HandleChange(s, c))
  {
    var r := HandleChange(s, c);
    if r != s {
      var p := Payload(c);
      assert r.scheduled == s.scheduled + [p];
      forall i | 0 <= i < |s.scheduled| && !SceneHasContent(r.scheduled[i])
        ensures exists j :: 0 <= j < i && SceneHasContent(r.scheduled[j])
      {
        assert r.scheduled[i] == s.scheduled[i];
        var j :| 0 <= j < i && SceneHasContent(s.scheduled[j]);
        assert r.scheduled[j] == s.scheduled[j];
      }
      if !SceneHasContent(p) {
        var j :| 0 <= j < |s.scheduled| && SceneHasContent(s.scheduled[j]);
        assert r.scheduled[j] == s.scheduled[j];
      } else {
        assert SceneHasContent(r.scheduled[|s.scheduled|]);
      }
      forall i | 0 <= i < |r.sent|
        ensures r.sent[i].data in r.scheduled
      {
        assert s.sent[i].data in s.scheduled;
      }
    }
  }

  lemma OpenGateKeepsAntiClobber(s: Session)
    requires AntiClobber(s)
    ensures AntiClobber(OpenGate(s))
  {
  }

  lemma LoadKeepsAntiClobber(cfg: SessionConfig, s: Session, o: LoadOutcome)
    requires AntiClobber(s)
    ensures AntiClobber(Load(cfg, s, o))
  {
  }

  lemma FlushKeepsAntiClobber(cfg: SessionConfig, s: Session)
    requires AntiClobber(s)
    ensures AntiClobber(Flush(cfg, s))
  {
    var r := Flush(cfg, s);
    forall i | 0 <= i < |r.sent|
      ensures r.sent[i].data in r.scheduled
    {
      if i < |s.sent| {
        assert r.sent[i] == s.sent[i];
      } else {
        assert r.sent[i].data == s.pending.value;
      }
    }
  }

  lemma {:induction false} RunKeepsAntiClobber(cfg: SessionConfig, s: Session, events: seq<Event>)
    requires AntiClobber(s)
    ensures AntiClobber(Run(cfg, s, events))
    decreases |events|
  {
    if events != [] {
      match events[0] {
        case Changed(c) => HandleChangeKeepsAntiClobber(s, c);
        case AnimationFrame => OpenGateKeepsAntiClobber(s);
        case DebounceElapsed => FlushKeepsAntiClobber(cfg, s);
      }
      RunKeepsAntiClobber(cfg, Step(cfg, s, events[0]), events[1..]);
    }
  }

  /**
   * The anti-clobber rule of a whole session: after the load and any sequence
   * of notifications, frames and debounce deadlines, every sent payload with
   * no content was scheduled after a content-bearing payload.
   */
  lemma EmptySaveFollowsContent(cfg: SessionConfig, o: LoadOutcome, events: seq<Event>, i: nat)
    requires i < |Run(cfg, Load(cfg, Initial(), o), events).sent|
    requires !SceneHasContent(Run(cfg, Load(cfg, Initial(), o), events).sent[i].data)
    ensures var r := Run(cfg, Load(cfg, Initial(), o), events);
            exists k, j :: 0 <= j < k < |r.scheduled| && r.scheduled[k] == r.sent[i].data
                           && SceneHasContent(r.scheduled[j])
  {
    var r := Run(cfg, Load(cfg, Initial(), o), events);
    RunKeepsAntiClobber(cfg, Load(cfg, Initial(), o), events);
    var k :| 0 <= k < |r.scheduled| && r.scheduled[k] == r.sent[i].data;
    var j :| 0 <= j < k && SceneHasContent(r.scheduled[j]);
  }

  /**
   * The sent log alone may start with an empty scene: drawing and erasing
   * within one quiet interval after a successful load sends only the empty
   * payload, because the pending slot keeps the latest one.
   */
  lemma DrawThenEraseSendsOnlyEmpty(cfg: SessionConfig, o: LoadOutcome, drawn: Change, erased: Change)
    requires LoadSucceeds(cfg, o) && ChangeHasContent(drawn) && !ChangeHasContent(erased)
    ensures var r := Run(cfg, Load(cfg, Initial(), o),
                         [AnimationFrame, Changed(drawn), Changed(erased), DebounceElapsed]);
            && r.sent == [SaveBody(cfg.canvasId, cfg.projectId, Payload(erased))]
            && !SceneHasContent(r.sent[0].data)
  {
    var evs := [AnimationFrame, Changed(drawn), Changed(erased), DebounceElapsed];
    var s0 := Load(cfg, Initial(), o);
    var s1 := OpenGate(s0);
    var s2 := HandleChange(s1, drawn);
    var s3 := HandleChange(s2, erased);
    var s4 := Flush(cfg, s3);
    assert Run(cfg, s0, evs) == Run(cfg, s1, evs[1..]);
    assert Run(cfg, s1, evs[1..]) == Run(cfg, s2, evs[2..]);
    assert Run(cfg, s2, evs[2..]) == Run(cfg, s3, evs[3..]);
    assert Run(cfg, s3, evs[3..]) == Run(cfg, s4, []);
  }

  /** The two guards are one-way flags, and the logs only grow. */
  lemma {:induction false} RunIsMonotone(cfg: SessionConfig, s: Session, events: seq<Event>)
    ensures var r := Run(cfg, s, events);
            && (s.hasAppliedInitial ==> r.hasAppliedInitial)
            && (s.hasSavedNonEmpty ==> r.hasSavedNonEmpty)
            && s.scheduled <= r.scheduled
            && s.sent <= r.sent
    decreases |events|
  {
    if events != [] {
      RunIsMonotone(cfg, Step(cfg, s, events[0]), events[1..]);
    }
  }

  /**
   * While the gate is closed and no frame callback is pending, nothing opens
   * it: every notification is dropped, nothing is scheduled and, with an empty
   * slot, nothing is sent.
   */
  lemma {:induction false} ClosedGateStaysClosed(cfg: SessionConfig, s: Session, events: seq<Event>)
    requires !s.hasAppliedInitial && !s.framePending
    ensures var r := Run(cfg, s, events);
            && !r.hasAppliedInitial
            && r.hasSavedNonEmpty == s.hasSavedNonEmpty
            && r.scheduled == s.scheduled
            && (s.pending.None? ==> r.pending.None? && r.sent == s.sent)
    decreases |events|
  {
    if events != [] {
      ClosedGateStaysClosed(cfg, Step(cfg, s, events[0]), events[1..]);
    }
  }

  /** A load without id, without base URL, or whose fetch fails never lets a save through. */
  lemma FailedLoadNeverSaves(cfg: SessionConfig, o: LoadOutcome, events: seq<Event>)
    requires !LoadSucceeds(cfg, o)
    ensures var r := Run(cfg, Load(cfg, Initial(), o), events);
            !r.hasAppliedInitial && r.scheduled == [] && r.sent == []
  {
    ClosedGateStaysClosed(cfg, Load(cfg, Initial(), o), events);
  }

  function Notifications(cs: seq<Change>): (evs: seq<Event>)
    ensures |evs| == |cs|
    ensures forall i :: 0 <= i < |cs| ==> evs[i] == Changed(cs[i])
  {
    if cs == [] then [] else [Changed(cs[0])] + Notifications(cs[1..])
  }

  lemma {:induction false} RunAppend(cfg: SessionConfig, s: Session, a: seq<Event>, b: seq<Event>)
    ensures Run(cfg, s, a + b) == Run(cfg, Run(cfg, s, a), b)
    decreases |a|
  {
    if a == [] {
      assert a + b == b;
    } else {
      assert (a + b)[0] == a[0] && (a + b)[1..] == a[1..] + b;
      RunAppend(cfg, Step(cfg, s, a[0]), a[1..], b);
    }
  }

  /**
   * A burst of ungated notifications that is saved from its first one on (content
   * existed before, or the first one has content) leaves only the last payload pending.
   */
  lemma {:induction false} BurstKeepsLast(cfg: SessionConfig, s: Session, cs: seq<Change>)
    requires cs != [] && s.hasAppliedInitial && (s.hasSavedNonEmpty || ChangeHasContent(cs[0]))
    ensures var r := Run(cfg, s, Notifications(cs));
            r.pending == Some(Payload(cs[|cs| - 1])) && r.sent == s.sent
            && r.hasAppliedInitial && r.hasSavedNonEmpty
    decreases |cs|
  {
    var s' := HandleChange(s, cs[0]);
    assert Notifications(cs)[1..] == Notifications(cs[1..]);
    if |cs| > 1 {
      BurstKeepsLast(cfg, s', cs[1..]);
    }
  }

  /**
   * Debounce coalescing: N notifications within one quiet interval followed by
   * the interval's end issue exactly one save, carrying the last payload.
   */
  lemma Coalescing(cfg: SessionConfig, s: Session, cs: seq<Change>)
    requires cs != [] && s.hasAppliedInitial && (s.hasSavedNonEmpty || ChangeHasContent(cs[0]))
    requires SaveEnabled(cfg)
    ensures Run(cfg, s, Notifications(cs) + [DebounceElapsed]).sent ==
            s.sent + [SaveBody(cfg.canvasId, cfg.projectId, Payload(cs[|cs| - 1]))]
  {
    RunAppend(cfg, s, Notifications(cs), [DebounceElapsed]);
    BurstKeepsLast(cfg, s, cs);
    var r := Run(cfg, s, Notifications(cs));
    assert Run(cfg, r, [DebounceElapsed]) == Flush(cfg, r);
  }

  /**
   * A deletion back to empty is saved once content has existed: after the gate
   * opens, drawing and then erasing (each followed by the end of a quiet
   * interval) sends the content and then the empty scene.
   */
  lemma DeletionIsSaved(cfg: SessionConfig, s: Session, drawn: Change, erased: Change)
    requires s.hasAppliedInitial && SaveEnabled(cfg)
    requires ChangeHasContent(drawn) && !ChangeHasContent(erased)
    ensures Run(cfg, s, [Changed(drawn), DebounceElapsed, Changed(erased), DebounceElapsed]).sent ==
            s.sent + [SaveBody(cfg.canvasId, cfg.projectId, Payload(drawn)),
                      SaveBody(cfg.canvasId, cfg.projectId, Payload(erased))]
  {
    var s1 := HandleChange(s, drawn);
    var s2 := Flush(cfg, s1);
    var s3 := HandleChange(s2, erased);
    var s4 := Flush(cfg, s3);
    var evs := [Changed(drawn), DebounceElapsed, Changed(erased), DebounceElapsed];
    assert Run(cfg, s, evs) == Run(cfg, s1, evs[1..]);
    assert Run(cfg, s1, evs[1..]) == Run(cfg, s2, evs[2..]);
    assert Run(cfg, s2, evs[2..]) == Run(cfg, s3, evs[3..]);
    assert Run(cfg, s3, evs[3..]) == Run(cfg, s4, []);
  }

  /** The client: the two guard refs, the pending debounced call and the requests it issued. */
  class Controller {
    const config: SessionConfig
    var hasAppliedInitial: bool
    var framePending: bool
    var hasSavedNonEmpty: bool
    var initialData: Option<Scene>
    var error: string
    var pending: Option<Scene>
    ghost var scheduled: seq<Scene>
    var sent: seq<SaveBody>

    ghost function State(): Session
      reads this
    {
      Session(hasAppliedInitial, framePending, hasSavedNonEmpty, initialData, error, pending, scheduled, sent)
    }

    ghost predicate Valid()
      reads this
    {
      AntiClobber(State())
    }

    constructor (config: SessionConfig)
      ensures this.config == config
      ensures State() == Initial() && Valid()
    {
      this.config := config;
      hasAppliedInitial, framePending, hasSavedNonEmpty := false, false, false;
      initialData, error, pending := None, "", None;
      scheduled, sent := [], [];
    }

    /** The mount effect: one fetch of the stored canvas. */
    method LoadCanvas(outcome: LoadOutcome)
      requires Valid()
      modifies this
      ensures Valid()
      ensures State() == Load(config, old(State()), outcome)
    {
      LoadKeepsAntiClobber(config, State(), outcome);
      if config.canvasId == "" { return; }
      if config.apiBase == "" { error := "Missing API base URL"; return; }
      match outcome {
        case HttpResponse(true, data) =>
          initialData := data;
          framePending := true;
        case _ =>
          error := "Failed to load canvas.";
      }
    }

    /** The animation-frame callback requested by a successful load. */
    method OnAnimationFrame()
      requires Valid()
      modifies this
      ensures Valid()
      ensures State() == OpenGate(old(State()))
    {
      OpenGateKeepsAntiClobber(State());
      if framePending {
        hasAppliedInitial := true;
        framePending := false;
      }
    }

    /** `handleChange(elements, appState, files)` */
    method OnChange(c: Change)
      requires Valid()
      modifies this
      ensures Valid()
      ensures State() == HandleChange(old(State()), c)
    {
      HandleChangeKeepsAntiClobber(State(), c);
      if !hasAppliedInitial { return; }
      var els := ElementList(c.elements);
      var nonDeleted := NonDeleted(els);
      var fileMap := FilesOrEmpty(c.files);
      var hasContent := |nonDeleted| > 0 || |fileMap| > 0;
      if !hasContent && !hasSavedNonEmpty { return; }
      if hasContent { hasSavedNonEmpty := true; }
      var payload := Scene(Items(els), c.appState, Some(fileMap));
      pending := Some(payload);
      scheduled := scheduled + [payload];
    }

    /** The end of the quiet interval: the debounced save body runs with the last payload. */
    method OnDebounceElapsed()
      requires Valid()
      modifies this
      ensures Valid()
      ensures State() == Flush(config, old(State()))
    {
      FlushKeepsAntiClobber(config, State());
      if pending.Some? {
        var payload := pending.value;
        pending := None;
        if config.apiBase != "" && config.canvasId != "" {
          sent := sent + [SaveBody(config.canvasId, config.projectId, payload)];
        }
      }
    }
  }
}
