/**
 * The reducers of the design flow: each takes the parts of the application
 * state it reads and an event payload, and returns the parts of the state it
 * replaces. Foreign collaborators (parameter coercion, entry-point and name
 * resolution, export catalog, serialisation) are passed in as functions, and
 * the wall clock as an integer timestamp.
 */
module Reducers {
  import opened Wrappers
  import opened DesignState

  // ---------------------------------------------------------------------
  // resetDesign

  /** A new design is being loaded from `origin` (`"http"` or `"local"`):
      identity, parameters and geometry return to their zero values, while
      the user's policy settings survive. */
  function ResetDesign(d: Design, origin: string): (r: Design)
    ensures r.name == Initialize().name && r.path == Initialize().path
    ensures r.mainPath == Initialize().mainPath
    ensures r.filesAndFolders == Initialize().filesAndFolders
    ensures r.parameterDefinitions == Initialize().parameterDefinitions
    ensures r.parameterValues == Initialize().parameterValues
    ensures r.parameterDefaults == Initialize().parameterDefaults
    ensures r.lookup == Initialize().lookup && r.lookupCounts == Initialize().lookupCounts
    ensures r.debug == Initialize().debug && r.solids == Initialize().solids
    ensures r.origin == Some(origin)
    // what is not in the reset list is kept
    ensures r.autoReload == d.autoReload && r.instantUpdate == d.instantUpdate
    ensures r.solidsTimeOut == d.solidsTimeOut && r.vtreeMode == d.vtreeMode
    ensures r.convertSupportedTypes == d.convertSupportedTypes
    ensures r.parametersOrigin == d.parametersOrigin
  {
    var zero := Initialize();
    var design := d.(
      name := zero.name, path := zero.path, mainPath := zero.mainPath,
      origin := zero.origin, filesAndFolders := zero.filesAndFolders,
      parameterDefinitions := zero.parameterDefinitions,
      parameterValues := zero.parameterValues,
      parameterDefaults := zero.parameterDefaults,
      lookup := zero.lookup, lookupCounts := zero.lookupCounts,
      debug := zero.debug, solids := zero.solids);
    design.(origin := Some(origin))
  }

  /** Resetting twice from the same origin is resetting once. */
  lemma ResetDesignIdempotent(d: Design, origin: string)
    ensures ResetDesign(ResetDesign(d, origin), origin) == ResetDesign(d, origin)
  {
  }

  /** Resetting the zero-value design only records the origin. */
  lemma ResetOfInitialDesign(origin: string)
    ensures ResetDesign(Initialize(), origin) == Initialize().(origin := Some(origin))
  {
  }

  // ---------------------------------------------------------------------
  // setDesignContent

  /** A file tree and the path it was loaded from. */
  datatype ContentPayload = ContentPayload(filesAndFolders: seq<Value>, path: string)

  /** Entry-point resolution, design-name derivation (both over the virtual
      file system built from the tree) and `path.dirname`. */
  datatype ProjectResolver = ProjectResolver(
    entryPoint: (seq<Value>, string) -> string,
    designName: (seq<Value>, string) -> string,
    dirname: string -> string)

  /** The parts of the state `setDesignContent` replaces. */
  datatype ContentUpdate = ContentUpdate(
    design: Design, viewer: map<string, Value>, appTitle: string, status: Status)

  /** The viewer behaviours set on new content. */
  const NewContentBehaviours: Value :=
    Obj(map["resetViewOn" := Arr([Str("")]), "zoomToFitOn" := Arr([Str("new-entities")])])

  /** Stores a new file tree, resolves its entry point and name, starts the
      clock and marks the design busy. The title is built from the name the
      design had BEFORE this update. */
  function SetDesignContent(d: Design, status: Option<Status>, viewer: Option<map<string, Value>>,
                            payload: ContentPayload, now: int, resolver: ProjectResolver,
                            version: string): (r: ContentUpdate)
    ensures r.design.filesAndFolders == payload.filesAndFolders
    ensures r.design.mainPath == resolver.entryPoint(payload.filesAndFolders, payload.path)
    ensures r.design.name == resolver.designName(payload.filesAndFolders, payload.path)
    ensures r.design.path == resolver.dirname(payload.path)
    ensures r.design.debug == d.debug.(startTime := now)
    // nothing else in the design changes
    ensures r.design.(name := d.name, path := d.path, mainPath := d.mainPath,
                      filesAndFolders := d.filesAndFolders, debug := d.debug) == d
    ensures "behaviours" in r.viewer && r.viewer["behaviours"] == NewContentBehaviours
    ensures r.viewer - {"behaviours"} == viewer.GetOr(map[]) - {"behaviours"}
    ensures r.appTitle == "jscad v " + version + ": " + d.name
    ensures r.status.busy && r.status.error == None
    ensures r.status.isBusy == StatusOrEmpty(status).isBusy
  {
    var files := payload.filesAndFolders;
    var design := d.(
      name := resolver.designName(files, payload.path),
      path := resolver.dirname(payload.path),
      mainPath := resolver.entryPoint(files, payload.path),
      filesAndFolders := files,
      debug := d.debug.(startTime := now));
    ContentUpdate(
      design,
      viewer.GetOr(map[])["behaviours" := NewContentBehaviours],
      "jscad v " + version + ": " + d.name,
      StatusOrEmpty(status).(busy := true, error := None))
  }

  // ---------------------------------------------------------------------
  // setDesignSolids

  /** A worker result; a property that is absent is `None`. */
  datatype SolidsPayload = SolidsPayload(
    solids: Option<seq<Value>>, lookup: Option<map<string, Value>>, lookupCounts: Option<map<string, int>>)

  datatype ExportFormats = ExportFormats(exportFormat: Value, availableExportFormats: seq<Value>)

  /** The export-format choice for a set of solids, and the default export
      file path for a design and a format. */
  datatype ExportCatalog = ExportCatalog(
    formatsFromSolids: seq<Value> -> ExportFormats,
    exportFilePath: (Design, Value) -> string)

  datatype Io = Io(exportFormat: Value, exportFilePath: string, availableExportFormats: seq<Value>)

  /** The parts of the state `setDesignSolids` replaces. */
  datatype SolidsUpdate = SolidsUpdate(design: Design, status: Status, io: Io)

  /** Replaces the solids and the geometry cache together, stops the clock
      and clears `busy`. */
  function SetDesignSolids(d: Design, status: Option<Status>, payload: SolidsPayload,
                           now: int, catalog: ExportCatalog): (r: SolidsUpdate)
    ensures r.design.solids == payload.solids.GetOr([])
    ensures r.design.lookup == payload.lookup.GetOr(map[])
    ensures r.design.lookupCounts == payload.lookupCounts.GetOr(map[])
    ensures r.design.debug.startTime == d.debug.startTime
    ensures r.design.debug.endTime == now
    ensures r.design.debug.totalTime == r.design.debug.endTime - r.design.debug.startTime
    // nothing else in the design changes
    ensures r.design.(solids := d.solids, lookup := d.lookup, lookupCounts := d.lookupCounts,
                      debug := d.debug) == d
    ensures !r.status.busy
    ensures r.status.(busy := StatusOrEmpty(status).busy) == StatusOrEmpty(status)
    // the export information is derived from the new solids and the new design
    ensures var formats := catalog.formatsFromSolids(r.design.solids);
      r.io == Io(formats.exportFormat, catalog.exportFilePath(r.design, formats.exportFormat),
                 formats.availableExportFormats)
  {
    var solids := payload.solids.GetOr([]);
    var lookup := payload.lookup.GetOr(map[]);
    var lookupCounts := payload.lookupCounts.GetOr(map[]);
    var debug := d.debug.(endTime := now, totalTime := now - d.debug.startTime);
    var design := d.(solids := solids, lookup := lookup, lookupCounts := lookupCounts, debug := debug);
    var formats := catalog.formatsFromSolids(solids);
    var io := Io(formats.exportFormat, catalog.exportFilePath(design, formats.exportFormat),
                 formats.availableExportFormats);
    SolidsUpdate(design, StatusOrEmpty(status).(busy := false), io)
  }

  // ---------------------------------------------------------------------
  // setDesignParameters

  /** A parameters event: from the UI (`uiManualUpdate`, `uiInstantUpdate`),
      from storage (`store`), from the worker (`worker`) or from the title bar
      (`titleBar`); a property that is absent is `None`. */
  datatype ParametersPayload = ParametersPayload(
    parameterValues: Option<Params>,
    parameterDefaults: Option<Params>,
    parameterDefinitions: Option<seq<Value>>,
    origin: Option<string>)

  /** The parts of the state `setDesignParameters` replaces. */
  datatype ParametersUpdate = ParametersUpdate(design: Design, status: Status)

  /** The origin the instant-update filter matches, as written. */
  const InstantUpdateOrigin: string := "instantUpdate"
  /** The origin the UI gives live edits of a parameter control. */
  const UiInstantUpdateOrigin: string := "uiInstantUpdate"
  const WorkerOrigin: string := "worker"

  /** `!state.design.instantUpdate`: the flag is false or undefined. */
  predicate InstantUpdateOff(d: Design) {
    d.instantUpdate != Some(true)
  }

  /** The values chosen by `data.parameterValues || parameterDefaults ||
      state.design.parameterValues`, where `parameterDefaults` is itself
      `data.parameterDefaults || state.design.parameterDefaults`. The design's
      defaults are always an object, which JavaScript treats as true, so the
      last alternative is never reached. */
  function ChosenValues(data: ParametersPayload, d: Design): (v: Params)
    ensures data.parameterValues.Some? ==> v == data.parameterValues.value
    ensures data.parameterValues.None? && data.parameterDefaults.Some? ==> v == data.parameterDefaults.value
    ensures data.parameterValues.None? && data.parameterDefaults.None? ==> v == d.parameterDefaults
  {
    data.parameterValues.GetOr(data.parameterDefaults.GetOr(d.parameterDefaults))
  }

  /** `setDesignParameters` with the filter matching the origins in
      `filteredOrigins`. */
  function ApplyParameters(d: Design, status: Option<Status>, data: ParametersPayload, now: int,
                           apply: (Params, seq<Value>) -> Params, filteredOrigins: set<string>): ParametersUpdate
  {
    var defaults := data.parameterDefaults.GetOr(d.parameterDefaults);
    var definitions := data.parameterDefinitions.GetOr(d.parameterDefinitions);
    var values :=
      if data.origin.Some? && data.origin.value in filteredOrigins && InstantUpdateOff(d) then d.parameterValues
      else apply(ChosenValues(data, d), definitions);
    var design := d.(parameterDefaults := defaults, parameterValues := values,
                     parameterDefinitions := definitions, parametersOrigin := data.origin);
    var design' := if data.origin != Some(WorkerOrigin) then design.(debug := d.debug.(startTime := now))
                   else design;
    ParametersUpdate(design', StatusOrEmpty(status).(busy := true, error := None))
  }

  /** True when the instant-update filter keeps the old values (as written). */
  predicate InstantUpdateSuppressed(data: ParametersPayload, d: Design) {
    data.origin == Some(InstantUpdateOrigin) && InstantUpdateOff(d)
  }

  /** Sets parameter defaults, definitions and values; `apply` is the
      definition-driven coercion `applyParameterDefinitions`. */
  function SetDesignParameters(d: Design, status: Option<Status>, data: ParametersPayload, now: int,
                               apply: (Params, seq<Value>) -> Params): (r: ParametersUpdate)
    ensures r.design.parameterDefaults == data.parameterDefaults.GetOr(d.parameterDefaults)
    ensures r.design.parameterDefinitions == data.parameterDefinitions.GetOr(d.parameterDefinitions)
    ensures InstantUpdateSuppressed(data, d) ==> r.design.parameterValues == d.parameterValues
    ensures !InstantUpdateSuppressed(data, d) ==>
      r.design.parameterValues == apply(ChosenValues(data, d), r.design.parameterDefinitions)
    ensures r.design.parametersOrigin == data.origin
    ensures data.origin != Some(WorkerOrigin) ==> r.design.debug == d.debug.(startTime := now)
    ensures data.origin == Some(WorkerOrigin) ==> r.design.debug == d.debug
    // nothing else in the design changes
    ensures r.design.(parameterDefaults := d.parameterDefaults, parameterValues := d.parameterValues,
                      parameterDefinitions := d.parameterDefinitions,
                      parametersOrigin := d.parametersOrigin, debug := d.debug) == d
    ensures r.status.busy && r.status.error == None
    ensures r.status.isBusy == StatusOrEmpty(status).isBusy
  {
    ApplyParameters(d, status, data, now, apply, {InstantUpdateOrigin})
  }

  /** Applying the same parameters event twice, at the same instant, is
      applying it once. */
  lemma SetDesignParametersIdempotent(d: Design, status: Option<Status>, data: ParametersPayload, now: int,
                                      apply: (Params, seq<Value>) -> Params)
    ensures var r := SetDesignParameters(d, status, data, now, apply);
      SetDesignParameters(r.design, Some(r.status), data, now, apply) == r
  {
    var r := SetDesignParameters(d, status, data, now, apply);
    assert ChosenValues(data, r.design) == ChosenValues(data, d);
  }

  /** A failed live edit (`{error, origin: 'instantUpdate'}`, no values and no
      defaults) with instant update on resets the values to the coerced
      design defaults. */
  lemma FailedLiveEditRestoresDefaults(d: Design, status: Option<Status>, now: int,
                                       apply: (Params, seq<Value>) -> Params)
    requires d.instantUpdate == Some(true)
    ensures var data := ParametersPayload(None, None, None, Some(InstantUpdateOrigin));
      SetDesignParameters(d, status, data, now, apply).design.parameterValues
        == apply(d.parameterDefaults, d.parameterDefinitions)
  {
  }

  /** The instant-update filter holds back only the values: new defaults and
      definitions still go through. */
  lemma SuppressedUpdateStillSetsDefinitions(d: Design, status: Option<Status>, data: ParametersPayload,
                                             now: int, apply: (Params, seq<Value>) -> Params)
    requires InstantUpdateSuppressed(data, d)
    requires data.parameterDefinitions.Some?
    ensures var r := SetDesignParameters(d, status, data, now, apply);
      r.design.parameterValues == d.parameterValues
      && r.design.parameterDefinitions == data.parameterDefinitions.value
  {
  }

  // ---------------------------------------------------------------------
  // setDesignSettings

  /** Settings read back from storage; a property that is absent is `None`. */
  datatype SettingsPayload = SettingsPayload(
    vtreeMode: Option<bool>, autoReload: Option<bool>, instantUpdate: Option<bool>,
    solidsTimeOut: Option<int>)

  /** Applies stored settings, unless `vtreeMode` is missing, in which case
      the payload is ignored. The other three are copied as they are, even
      when undefined. */
  function SetDesignSettings(d: Design, data: SettingsPayload): (r: Design)
    ensures data.vtreeMode.None? ==> r == d
    ensures data.vtreeMode.Some? ==>
      && r.vtreeMode == data.vtreeMode.value
      && r.autoReload == data.autoReload
      && r.instantUpdate == data.instantUpdate
      && r.solidsTimeOut == data.solidsTimeOut
    // nothing outside the four settings changes
    ensures r.(vtreeMode := d.vtreeMode, autoReload := d.autoReload,
               instantUpdate := d.instantUpdate, solidsTimeOut := d.solidsTimeOut) == d
  {
    match data.vtreeMode
    case None => d
    case Some(vtreeMode) =>
      d.(vtreeMode := vtreeMode, autoReload := data.autoReload,
         instantUpdate := data.instantUpdate, solidsTimeOut := data.solidsTimeOut)
  }

  /** Applying the same stored settings twice is applying them once. */
  lemma SetDesignSettingsIdempotent(d: Design, data: SettingsPayload)
    ensures SetDesignSettings(SetDesignSettings(d, data), data) == SetDesignSettings(d, data)
  {
  }

  // ---------------------------------------------------------------------
  // ui toggles

  function ToggleAutoReload(d: Design, autoReload: bool): (r: Design)
    ensures r.autoReload == Some(autoReload)
    ensures r.(autoReload := d.autoReload) == d
  {
    d.(autoReload := Some(autoReload))
  }

  function ToggleInstantUpdate(d: Design, instantUpdate: bool): (r: Design)
    ensures r.instantUpdate == Some(instantUpdate)
    ensures r.(instantUpdate := d.instantUpdate) == d
  {
    d.(instantUpdate := Some(instantUpdate))
  }

  function ToggleVtreeMode(d: Design, vtreeMode: bool): (r: Design)
    ensures r.vtreeMode == vtreeMode
    ensures r.(vtreeMode := d.vtreeMode) == d
  {
    d.(vtreeMode := vtreeMode)
  }

  function SetSolidsTimeout(d: Design, solidsTimeOut: int): (r: Design)
    ensures r.solidsTimeOut == Some(solidsTimeOut)
    ensures r.(solidsTimeOut := d.solidsTimeOut) == d
  {
    d.(solidsTimeOut := Some(solidsTimeOut))
  }

  // ---------------------------------------------------------------------
  // requestGeometryRecompute and requestSaveSettings: projections

  /** What the geometry worker is sent. */
  datatype RecomputeRequest = RecomputeRequest(
    mainPath: string, parameterValues: Params, filesAndFolders: seq<Value>, vtreeMode: bool,
    lookup: map<string, Value>, lookupCounts: map<string, int>)

  /** The recompute request carries exactly the inputs of a recompute. */
  function RequestGeometryRecompute(d: Design): (r: RecomputeRequest)
    ensures r.mainPath == d.mainPath && r.parameterValues == d.parameterValues
    ensures r.filesAndFolders == d.filesAndFolders && r.vtreeMode == d.vtreeMode
    ensures r.lookup == d.lookup && r.lookupCounts == d.lookupCounts
  {
    RecomputeRequest(d.mainPath, d.parameterValues, d.filesAndFolders, d.vtreeMode, d.lookup, d.lookupCounts)
  }

  /** The fields persisted in the settings store, in the order of
      `serializableFields`. */
  datatype SavedSettings = SavedSettings(
    name: string, mainPath: string, origin: Option<string>, parameterValues: Params,
    vtreeMode: bool, autoReload: Option<bool>, instantUpdate: Option<bool>, solidsTimeOut: Option<int>)

  function RequestSaveSettings(d: Design): (r: SavedSettings)
    ensures r.name == d.name && r.mainPath == d.mainPath && r.origin == d.origin
    ensures r.parameterValues == d.parameterValues && r.vtreeMode == d.vtreeMode
    ensures r.autoReload == d.autoReload && r.instantUpdate == d.instantUpdate
    ensures r.solidsTimeOut == d.solidsTimeOut
  {
    SavedSettings(d.name, d.mainPath, d.origin, d.parameterValues, d.vtreeMode,
                  d.autoReload, d.instantUpdate, d.solidsTimeOut)
  }

  /** Stored settings that carry `vtreeMode` are what a later save writes
      back for the four policy fields. */
  lemma SettingsRoundTrip(d: Design, data: SettingsPayload)
    requires data.vtreeMode.Some?
    ensures var saved := RequestSaveSettings(SetDesignSettings(d, data));
      SettingsPayload(Some(saved.vtreeMode), saved.autoReload, saved.instantUpdate, saved.solidsTimeOut) == data
  {
  }

  /** The recompute request is determined by the design minus its identity,
      parameter metadata, policy settings, solids and timing. */
  lemma RequestIgnoresNonInputs(d: Design, name: string, path: string, definitions: seq<Value>,
                                solids: seq<Value>, debug: Debug, autoReload: Option<bool>)
    ensures RequestGeometryRecompute(d.(name := name, path := path, parameterDefinitions := definitions,
                                        solids := solids, debug := debug, autoReload := autoReload))
            == RequestGeometryRecompute(d)
  {
  }

  // ---------------------------------------------------------------------
  // timeoutGeometryRecompute

  const TimeoutMessage: string := "Failed to generate design within an acceptable time, bailing out"

  /** What the timeout reducer returns: a bare status object (its fields at
      the top level, not under `status`), `{status}`, or a TypeError thrown
      when the state has no status. */
  datatype TimeoutOutcome =
    | BareStatus(fields: Status)
    | WrappedStatus(status: Status)
    | TimeoutTypeError

  /** The recompute timeout as written: it tests `status.isBusy`. */
  function TimeoutGeometryRecompute(status: Option<Status>): (r: TimeoutOutcome)
    ensures status.None? <==> r.TimeoutTypeError?
    ensures status.Some? && status.value.isBusy ==>
      r == BareStatus(status.value.(busy := false, error := Some(TimeoutMessage)))
    ensures status.Some? && !status.value.isBusy ==> r == WrappedStatus(status.value)
  {
    match status
    case None => TimeoutTypeError
    case Some(s) =>
      if s.isBusy then BareStatus(s.(busy := false, error := Some(TimeoutMessage)))
      else WrappedStatus(s)
  }

  /** No reducer sets `isBusy`: every status produced by the content,
      parameters and solids reducers from a status without it leaves it
      unset, so the timeout never cancels, even while `busy` is true. */
  lemma TimeoutIgnoresBusy(d: Design, status: Option<Status>, data: ParametersPayload, now: int,
                           apply: (Params, seq<Value>) -> Params)
    requires !StatusOrEmpty(status).isBusy
    ensures var busy := SetDesignParameters(d, status, data, now, apply).status;
      busy.busy && TimeoutGeometryRecompute(Some(busy)) == WrappedStatus(busy)
  {
  }

  /** The recompute timeout as evidently intended: it tests `status.busy`
      and returns the new status under `status`. */
  function TimeoutGeometryRecomputeIntended(status: Option<Status>): (r: TimeoutOutcome)
    ensures status.None? <==> r.TimeoutTypeError?
    ensures status.Some? ==> r.WrappedStatus?
    ensures status.Some? && status.value.busy ==>
      r.status == status.value.(busy := false, error := Some(TimeoutMessage))
    ensures status.Some? && !status.value.busy ==> r.status == status.value
  {
    match status
    case None => TimeoutTypeError
    case Some(s) =>
      if s.busy then WrappedStatus(s.(busy := false, error := Some(TimeoutMessage)))
      else WrappedStatus(s)
  }

  /** A timeout firing after a recompute request has been issued (the
      parameters reducer set `busy`) cancels it. */
  lemma IntendedTimeoutCancelsBusyRecompute(d: Design, status: Option<Status>, data: ParametersPayload,
                                            now: int, apply: (Params, seq<Value>) -> Params)
    ensures var s := SetDesignParameters(d, status, data, now, apply).status;
      var t := TimeoutGeometryRecomputeIntended(Some(s));
      t.WrappedStatus? && !t.status.busy && t.status.error == Some(TimeoutMessage)
  {
  }

  /** Race safety: a timeout processed after the solids result is a no-op,
      and a solids result processed after the timeout keeps its error and
      leaves the design idle; a second timeout changes nothing. */
  lemma IntendedTimeoutRaceSafety(d: Design, status: Status, payload: SolidsPayload, now: int,
                                  catalog: ExportCatalog)
    ensures var done := SetDesignSolids(d, Some(status), payload, now, catalog).status;
      TimeoutGeometryRecomputeIntended(Some(done)) == WrappedStatus(done)
    ensures var cancelled := TimeoutGeometryRecomputeIntended(Some(status)).status;
      var after := SetDesignSolids(d, Some(cancelled), payload, now, catalog).status;
      !after.busy && after.error == cancelled.error
    ensures var cancelled := TimeoutGeometryRecomputeIntended(Some(status)).status;
      TimeoutGeometryRecomputeIntended(Some(cancelled)) == WrappedStatus(cancelled)
  {
  }

  // ---------------------------------------------------------------------
  // setDesignParameters with the instant-update filter as evidently intended

  /** True when the corrected filter keeps the old values: instant update
      is off and the event is a live edit of a control (`uiInstantUpdate`)
      or the error payload of a failed live edit (`instantUpdate`). */
  predicate LiveEditSuppressed(data: ParametersPayload, d: Design) {
    (data.origin == Some(UiInstantUpdateOrigin) || data.origin == Some(InstantUpdateOrigin))
    && InstantUpdateOff(d)
  }

  /** With instant update off, neither a live edit of a parameter control nor
      its error payload touches the values; every other effect is that of the
      reducer as written. */
  function SetDesignParametersIntended(d: Design, status: Option<Status>, data: ParametersPayload, now: int,
                                       apply: (Params, seq<Value>) -> Params): (r: ParametersUpdate)
    ensures LiveEditSuppressed(data, d) ==> r.design.parameterValues == d.parameterValues
    ensures !LiveEditSuppressed(data, d) ==>
      r.design.parameterValues == apply(ChosenValues(data, d), r.design.parameterDefinitions)
    ensures r.design.(parameterValues := d.parameterValues)
            == SetDesignParameters(d, status, data, now, apply).design.(parameterValues := d.parameterValues)
    ensures r.status == SetDesignParameters(d, status, data, now, apply).status
  {
    ApplyParameters(d, status, data, now, apply, {InstantUpdateOrigin, UiInstantUpdateOrigin})
  }

  /** Outside live edits the two filters agree, error payloads included, so
      every property of the reducer as written holds of the corrected one for
      those events. */
  lemma IntendedAgreesOutsideLiveEdits(d: Design, status: Option<Status>, data: ParametersPayload, now: int,
                                       apply: (Params, seq<Value>) -> Params)
    requires data.origin != Some(UiInstantUpdateOrigin)
    ensures SetDesignParametersIntended(d, status, data, now, apply) == SetDesignParameters(d, status, data, now, apply)
  {
  }

  /** With instant update on, the two filters agree for every origin: the
      corrected reducer can differ from the one as written only on a live edit
      while instant update is off. */
  lemma IntendedAgreesWhenInstantUpdateOn(d: Design, status: Option<Status>, data: ParametersPayload,
                                          now: int, apply: (Params, seq<Value>) -> Params)
    requires d.instantUpdate == Some(true)
    ensures SetDesignParametersIntended(d, status, data, now, apply) == SetDesignParameters(d, status, data, now, apply)
  {
  }

  /** As written, a live edit (origin `uiInstantUpdate`) passes the filter
      even when instant update is off. */
  lemma LiveEditNotSuppressed(d: Design, status: Option<Status>, now: int)
    requires d.instantUpdate == Some(false) && d.parameterValues == map["a" := Num(1)]
    ensures var data := ParametersPayload(Some(map["a" := Num(2)]), None, None, Some(UiInstantUpdateOrigin));
      var identity := (v: Params, defs: seq<Value>) => v;
      SetDesignParameters(d, status, data, now, identity).design.parameterValues == map["a" := Num(2)]
      && SetDesignParametersIntended(d, status, data, now, identity).design.parameterValues == map["a" := Num(1)]
  {
  }

  // ---------------------------------------------------------------------
  // requestWriteCachedGeometry

  /** A write of the geometry cache to the file-system sink. */
  datatype CacheWrite = CacheWrite(data: string, path: string, isRawData: bool)

  const CachePath: string := ".solidsCache"

  /** Copies every key of the cache into a fresh object and serialises it;
      the copy is the cache itself, so what is written is the serialised
      cache, raw, under `.solidsCache`. */
  function RequestWriteCachedGeometry(cache: map<string, Value>, serialize: map<string, Value> -> string)
    : (r: CacheWrite)
    ensures r.data == serialize(cache)
    ensures r.path == CachePath && r.isRawData
  {
    var copy := map key | key in cache.Keys :: cache[key];
    assert copy == cache;
    CacheWrite(serialize(copy), CachePath, true)
  }
}
