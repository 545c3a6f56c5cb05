/**
 * The earlier client revision: no gate and no sticky flag. A notification is
 * dropped only when its `elements` argument is falsy; every other one is
 * scheduled with its files blanked. Its load has no `try`: a rejected fetch is
 * an unhandled rejection that leaves the state as it was. Its save body has no
 * guard: it always issues the request and swallows a failure with `.catch`.
 */
module LegacySync {
  import opened Wrappers
  import opened Scene
  import SyncController

  /**
   * The module-scope configuration of this revision read by the model (no
   * record id, no secret); the base URL only forms the request's address,
   * which is not modelled.
   */
  datatype LegacyConfig = LegacyConfig(canvasId: string, projectId: string)

  /** `if (!elements) return; saveDebounced({ elements, appState, files: {} })` */
  function LegacyPayload(c: SyncController.Change): (r: Option<Scene>)
    ensures r.None? <==> c.elements.Absent?
    ensures r.Some? ==> r.value.elements == c.elements && r.value.appState == c.appState
    ensures r.Some? ==> r.value.files == Some(map[])
  {
    if c.elements.Absent? then None else Some(Scene(c.elements, c.appState, Some(map[])))
  }

  /**
   * The revisions differ on an empty first notification: this one schedules an
   * empty scene over whatever is stored, the gated controller drops it even
   * once its gate has opened.
   */
  lemma LegacySchedulesEmptyScene(appState: AppState)
    ensures var c := SyncController.Change(Items([]), appState, None);
            && LegacyPayload(c) == Some(Scene(Items([]), appState, Some(map[])))
            && !SceneHasContent(LegacyPayload(c).value)
            && var gateOpen := SyncController.Initial().(hasAppliedInitial := true);
               SyncController.HandleChange(gateOpen, c) == gateOpen
  {
    assert NonDeleted([]) == [];
  }

  class LegacyController {
    const config: LegacyConfig
    var initialData: Option<Scene>
    var pending: Option<Scene>
    var sent: seq<SyncController.SaveBody>

    constructor (config: LegacyConfig)
      ensures this.config == config
      ensures initialData.None? && pending.None? && sent == []
    {
      this.config := config;
      initialData, pending, sent := None, None, [];
    }

    /** The mount effect: skipped without an id; only an ok response sets `initialData`. */
    method LoadCanvas(outcome: SyncController.LoadOutcome)
      modifies this
      ensures pending == old(pending) && sent == old(sent)
      ensures initialData ==
        if config.canvasId != "" && outcome.HttpResponse? && outcome.ok then outcome.data
        else old(initialData)
    {
      if config.canvasId == "" { return; }
      if outcome.HttpResponse? && outcome.ok {
        initialData := outcome.data;
      }
    }

    /** `handleChange(elements, appState, files)` */
    method OnChange(c: SyncController.Change)
      modifies this
      ensures initialData == old(initialData) && sent == old(sent)
      ensures pending == if c.elements.Absent? then old(pending) else LegacyPayload(c)
    {
      if c.elements.Absent? { return; }
      pending := Some(Scene(c.elements, c.appState, Some(map[])));
    }

    /** The end of the quiet interval: the save body always issues its request. */
    method OnDebounceElapsed()
      modifies this
      ensures pending.None? && initialData == old(initialData)
      ensures sent == old(sent) +
        if old(pending).Some? then [SyncController.SaveBody(config.canvasId, config.projectId, old(pending).value)]
        else []
    {
      if pending.Some? {
        sent := sent + [SyncController.SaveBody(config.canvasId, config.projectId, pending.value)];
        pending := None;
      }
    }
  }
}
