# Design-flow reducers of the JSCAD web UI

This project models the design flow of the JSCAD web UI
(`packages/web/src/ui/flow/design.js`). The flow owns one "design" record:
the loaded source tree, parameter definitions and values, the solids computed
from them and the geometry cache. It also owns the sibling `status` record and
writes into the `viewer` and `io` records. The model covers the `reducers`
object: the pure state transitions, the two projections sent to the geometry
worker and to the settings store, and the three gates that decide when a new
recompute or a new save is due. It also covers the recompute-request pipeline,
which keeps the states that change, drops invalid ones and projects each to a
request.

Modules:

- `Wrappers`: `Option`, which stands for a property that may be `undefined`.
- `DesignState`: JSON values, the `Design` and `Status` records, and
  `Initialize`, the zero-value design.
- `Reducers`: one function per reducer. Each takes the parts of the state it
  reads and returns the parts it replaces. A reducer whose result the store
  merges into several records (`{design, status, io}`) returns a record with
  those parts. Its contract states every field it sets, and says that every
  other field is unchanged. This module also holds the corrected versions
  listed under Findings.
- `Gates`: `isDesignValid`, `isDesignTheSame` and
  `isDesignTheSameForSerialization`. Its lemmas say which reducer can open
  which gate.
- `RecomputePipeline`: `skipRepeatsWith(isDesignTheSame)`, then
  `filter(isDesignValid)`, then `map(requestGeometryRecompute)`, over a finite
  sequence of states. It is proved equal to a reference definition: keep the
  first state and every state that differs from the one just before. From that
  follows what one more state adds to the requests: nothing after a worker
  result, a reset or a policy toggle, and exactly one request after a
  parameter change.

The code's collaborators are function parameters:
- `applyParameterDefinitions` (the `apply` argument);
- entry-point resolution, design-name derivation and `path.dirname` (`ProjectResolver`);
- export-format selection and the export file path (`ExportCatalog`);
- `serialize-to-js` (the `serialize` argument).

The clock (`new Date()`) is an integer timestamp argument. The package version
in the title is a string argument.

The model follows the code, including these quirks:
- The recompute timeout tests `status.isBusy`, which no reducer writes, rather than `status.busy`.
- The instant-update filter matches only origin `'instantUpdate'` (the error payload of a failed live edit), not `'uiInstantUpdate'` (the live edit itself).
- Value precedence falls back to the design's *defaults*, not its values.
- `resetDesign` also keeps `vtreeMode` and `parametersOrigin`.
- `setDesignSettings` copies `autoReload`, `instantUpdate` and
  `solidsTimeOut` even when they are undefined.

## Model

| member | source | states |
|---|---|---|
| `DesignState.Initialize` | packages/web/src/ui/flow/design.js:41-73 | the zero-value design: empty identity, tree, parameters, solids and cache; instant update and auto-reload on; timeout 80000 ms; vtree mode and conversion off; timing zero |
| `Reducers.ResetDesign` | packages/web/src/ui/flow/design.js:80-94 | name, path, mainPath, file tree, parameter definitions/values/defaults, lookup, lookupCounts, debug and solids take their `initialize()` values; origin is the argument; autoReload, instantUpdate, solidsTimeOut, vtreeMode, convertSupportedTypes and parametersOrigin are kept |
| `Reducers.ResetDesignIdempotent` | packages/web/src/ui/flow/design.js:80-94 | resetting twice from the same origin equals resetting once |
| `Reducers.ResetOfInitialDesign` | packages/web/src/ui/flow/design.js:80-94 | resetting the zero-value design changes only its origin |
| `Reducers.SetDesignContent` | packages/web/src/ui/flow/design.js:102-136 | stores the tree; mainPath, name and path come from the resolver on the tree and root path; startTime is the current time; no other design field changes; viewer gets the new-content behaviours and keeps its other entries; title uses the name from before the update; status busy, error cleared, other flags kept |
| `Reducers.SetDesignSolids` | packages/web/src/ui/flow/design.js:145-183 | solids, lookup and lookupCounts are replaced together, defaulting to `[]`, `{}`, `{}`; endTime is the current time and totalTime = endTime − startTime; nothing else in the design changes; busy cleared, other status fields kept; io derived from the new solids and new design |
| `Reducers.ChosenValues` | packages/web/src/ui/flow/design.js:195-198 | value precedence: event values, else event defaults, else the design's defaults (an object, so always true in JavaScript) |
| `Reducers.SetDesignParameters` | packages/web/src/ui/flow/design.js:192-225 | defaults and definitions: the event's, else the design's; values: the old ones when origin is `'instantUpdate'` and instant update is off, otherwise the chosen values passed through `applyParameterDefinitions`; parametersOrigin is the event's origin; startTime refreshed exactly when origin is not `'worker'`; nothing else changes; busy set, error cleared |
| `Reducers.SetDesignParametersIdempotent` | packages/web/src/ui/flow/design.js:192-225 | the same event applied twice at the same instant gives the same state as applying it once |
| `Reducers.FailedLiveEditRestoresDefaults` | packages/web/src/ui/flow/design.js:195-204 | with instant update on, an error payload `{error, origin: 'instantUpdate'}` sets the values to the coerced design defaults |
| `Reducers.SuppressedUpdateStillSetsDefinitions` | packages/web/src/ui/flow/design.js:202-211 | the instant-update filter holds back the values only; new definitions still apply |
| `Reducers.SetDesignSettings` | packages/web/src/ui/flow/design.js:227-242 | with `vtreeMode` undefined the design is returned unchanged; otherwise vtreeMode, autoReload, instantUpdate and solidsTimeOut are overwritten (even with undefined) and nothing else changes |
| `Reducers.SetDesignSettingsIdempotent` | packages/web/src/ui/flow/design.js:227-242 | applying the same stored settings twice equals applying them once |
| `Reducers.ToggleAutoReload` | packages/web/src/ui/flow/design.js:298-302 | sets autoReload and nothing else |
| `Reducers.ToggleInstantUpdate` | packages/web/src/ui/flow/design.js:303-307 | sets instantUpdate and nothing else |
| `Reducers.ToggleVtreeMode` | packages/web/src/ui/flow/design.js:308-312 | sets vtreeMode and nothing else |
| `Reducers.SetSolidsTimeout` | packages/web/src/ui/flow/design.js:313-317 | sets solidsTimeOut and nothing else |
| `Reducers.RequestGeometryRecompute` | packages/web/src/ui/flow/design.js:244-246 | the request holds exactly mainPath, parameterValues, filesAndFolders, vtreeMode, lookup and lookupCounts of the design |
| `Reducers.RequestIgnoresNonInputs` | packages/web/src/ui/flow/design.js:244-246 | changing name, path, definitions, solids, timing or auto-reload leaves the request unchanged |
| `Reducers.RequestSaveSettings` | packages/web/src/ui/flow/design.js:268-270 | the saved record holds exactly the eight serialisable fields of the design |
| `Reducers.SettingsRoundTrip` | packages/web/src/ui/flow/design.js:227-242 | stored settings that carry vtreeMode come back unchanged in the next save projection |
| `Reducers.TimeoutGeometryRecompute` | packages/web/src/ui/flow/design.js:248-257 | as written: no status gives a TypeError; a truthy `isBusy` gives a bare status with busy cleared and the timeout error; otherwise `{status}` unchanged |
| `Reducers.TimeoutIgnoresBusy` | packages/web/src/ui/flow/design.js:249-256 | after a parameters event the status is busy, yet the timeout as written returns it unchanged |
| `Reducers.TimeoutGeometryRecomputeIntended` | packages/web/src/ui/flow/design.js:248-257 | corrected: a busy status is cancelled (busy cleared, timeout error) under `status`; an idle one is returned unchanged |
| `Reducers.IntendedTimeoutCancelsBusyRecompute` | packages/web/src/ui/flow/design.js:248-257 | a timeout after a parameters event clears busy and records the timeout error |
| `Reducers.IntendedTimeoutRaceSafety` | packages/web/src/ui/flow/design.js:248-257 | a timeout after the solids result is a no-op; solids after a timeout keep its error and leave busy cleared; a second timeout is a no-op |
| `Reducers.SetDesignParametersIntended` | packages/web/src/ui/flow/design.js:202-204 | corrected filter: with instant update off, both a live edit (`'uiInstantUpdate'`) and the error payload of a failed one (`'instantUpdate'`) keep the old values; otherwise the values are the coerced chosen values; defaults, definitions, origin, timing and status are those of the reducer as written |
| `Reducers.IntendedAgreesOutsideLiveEdits` | packages/web/src/ui/flow/design.js:202-204 | for every origin except `'uiInstantUpdate'`, the `'instantUpdate'` error payload included, the corrected and as-written reducers give the same result |
| `Reducers.IntendedAgreesWhenInstantUpdateOn` | packages/web/src/ui/flow/design.js:202-204 | with instant update on, the corrected and as-written reducers give the same result for every origin |
| `Reducers.LiveEditNotSuppressed` | packages/web/src/ui/flow/design.js:202 | with instant update off, a live edit changes `{a: 1}` to `{a: 2}` as written, and is held back by the corrected filter |
| `Reducers.RequestWriteCachedGeometry` | packages/web/src/ui/flow/design.js:258-266 | the key-by-key copy is the cache itself; the write carries its serialisation, raw, under `.solidsCache` |
| `Gates.IsDesignValid` | packages/web/src/ui/flow/design.js:272-274 | holds exactly when a design exists, its name is non-empty and its path is not `''` |
| `Gates.IsDesignTheSame` | packages/web/src/ui/flow/design.js:276-285 | false with no previous design; otherwise true exactly when parameterDefinitions, parameterValues, mainPath, filesAndFolders and vtreeMode agree |
| `Gates.IsDesignTheSameForSerialization` | packages/web/src/ui/flow/design.js:287-295 | false with no previous design; otherwise true exactly when the two save projections (the eight serialisable fields) agree |
| `Gates.SameIsReflexive` | packages/web/src/ui/flow/design.js:282-284 | both gates hold of a design and itself |
| `Gates.SameIsSymmetric` | packages/web/src/ui/flow/design.js:282-284 | the recompute gate does not depend on argument order between two designs |
| `Gates.SameIsTransitive` | packages/web/src/ui/flow/design.js:282-284 | the recompute gate is transitive over designs |
| `Gates.SameDependsOnlyOnTrackedFields` | packages/web/src/ui/flow/design.js:17-23 | designs agreeing on the five tracked fields are judged alike against any design, so solids, lookup, name and the rest never alter the gate |
| `Gates.SameDesignSameRequest` | packages/web/src/ui/flow/design.js:244-246 | designs the gate calls the same, with the same cache, produce the same recompute request |
| `Gates.InitialDesignIsNotValid` | packages/web/src/ui/flow/design.js:41-73 | the zero-value design is not valid |
| `Gates.ResetDesignIsNotValid` | packages/web/src/ui/flow/design.js:80-94 | a reset design is not valid |
| `Gates.ContentValidity` | packages/web/src/ui/flow/design.js:108-123 | after new content the design is valid exactly when the derived name and the dirname are non-empty |
| `Gates.SolidsOpenNoGate` | packages/web/src/ui/flow/design.js:160-165 | a solids result leaves both gates closed and validity unchanged |
| `Gates.ContentRecomputeGate` | packages/web/src/ui/flow/design.js:117-123 | new content calls for a recompute exactly when mainPath or the tree changed |
| `Gates.ParametersRecomputeGate` | packages/web/src/ui/flow/design.js:206-211 | a parameters event calls for a recompute exactly when values or definitions changed |
| `Gates.SuppressedUpdateNeedsNoRecompute` | packages/web/src/ui/flow/design.js:202-204 | a suppressed instant update without new definitions calls for no recompute |
| `Gates.SettingsGates` | packages/web/src/ui/flow/design.js:235-238 | stored settings call for a recompute exactly when they switch vtree mode, and for a save exactly when they change one of the four settings |
| `Gates.TogglesGates` | packages/web/src/ui/flow/design.js:298-317 | only the vtree toggle can call for a recompute, exactly when it changes the flag; each toggle calls for a save exactly when it changes its field |
| `Gates.GatesAreIndependent` | packages/web/src/ui/flow/design.js:17-35 | a rename passes the recompute gate but not the save gate; new definitions pass the save gate but not the recompute gate |
| `RecomputePipeline.SkipRepeatsAfter` | packages/web/src/ui/flow/design.js:489 | compares each state with the last state kept; keeps no more states than it is given, and only states from its input |
| `RecomputePipeline.SkipRepeats` | packages/web/src/ui/flow/design.js:489 | keeps the first state; keeps no more states than it is given, and only states from its input |
| `RecomputePipeline.ValidRequests` | packages/web/src/ui/flow/design.js:490-491 | every request is the projection of a valid state of its input |
| `RecomputePipeline.RecomputeRequests` | packages/web/src/ui/flow/design.js:488-493 | every request sent to the worker is the projection of a valid state of the stream, and there are no more requests than states |
| `RecomputePipeline.SkipRepeatsAfterMatchesChanges` | packages/web/src/ui/flow/design.js:489 | comparing with the last state kept equals comparing with the immediately preceding state, whenever the two are alike for the gate |
| `RecomputePipeline.SkipRepeatsKeepsChanges` | packages/web/src/ui/flow/design.js:489 | skip-repeats keeps exactly the first state and every state that differs from its predecessor |
| `RecomputePipeline.ChangedStatesAppend` | packages/web/src/ui/flow/design.js:489 | one more state is kept exactly when it differs from the state before it |
| `RecomputePipeline.RecomputeRequestsAppend` | packages/web/src/ui/flow/design.js:488-493 | one more state adds one request, its own projection, exactly when it differs from the previous state and is valid; otherwise none |
| `RecomputePipeline.WorkerResultRequestsNothing` | packages/web/src/ui/flow/design.js:488-493 | a solids result appended to the stream adds no recompute request |
| `RecomputePipeline.ResetRequestsNothing` | packages/web/src/ui/flow/design.js:488-493 | a reset appended to the stream adds no recompute request |
| `RecomputePipeline.ParameterChangeRequestsOnce` | packages/web/src/ui/flow/design.js:488-493 | on a valid design, a parameters event that changes the values adds exactly one request, carrying the new values |
| `RecomputePipeline.PolicyToggleRequestsNothing` | packages/web/src/ui/flow/design.js:488-493 | toggling auto-reload or instant update, or setting the timeout, adds no recompute request |
| `RecomputePipeline.FreshStart` | packages/web/src/ui/flow/design.js:41-245 | zero design; a settings reply without vtreeMode is ignored; content makes the design busy; stored values `{a: 1}` are applied; two requests, the last carrying `{a: 1}`; solids clear busy and add no request |

## Left out

- The rest of the `actions` stream wiring (design.js:320-647) is left out, apart from the recompute-request pipeline. It consists of event merging, debounce and delay timers, `holdUntil`, `withLatestFrom`, the persistence pipeline, the watch requests and the cancel command. It depends on a stream library and on helper files that are not part of this model.
- `RecomputePipeline.SkipRepeats`: the behaviour of `skipRepeatsWith` is an assumption: keep the first state, then compare each state with the last state kept. The stream library is not part of this model.
- DOM, `window` and `document` access, and the `console` logging are left out.
- The foreign functions are arguments with no properties assumed: `applyParameterDefinitions`, `makeFakeFs`, `getDesignEntryPoint`, `getDesignName`, `path.dirname`, `availableExportFormatsFromSolids`, `exportFilePathFromFormatAndDesign`, `serialize-to-js`. The same holds for the package version.
- `new Date()` is an integer millisecond timestamp argument; `Date` objects and their subtraction are not modelled.
- Numbers are integers: floating point, `parseFloat` and `NaN` timeouts are not modelled.
- `JSON.stringify` comparisons are structural equality of the projected fields. The source also depends on key insertion order, and it drops `undefined` entries. Neither is modelled.
- `Reducers.SetDesignParameters`: a payload field holding a falsy non-object (`null`, `0`, `''`, `false`) counts as absent. Every object, `{}` and `[]` included, counts as present, as in JavaScript. The same holds for the other payloads.
- `Reducers.SetDesignSettings`: payload values are typed. A `vtreeMode` of `null`, which passes the `=== undefined` guard, is not modelled.
- The status record: an absent `busy` or `isBusy` flag reads as false, since the reducers only test these flags for truth. Other status fields are not modelled.
- The reducers take a defined `state.design`, because `initialize` runs first. `Object.assign` over an undefined design, which gives a partial record, is not modelled.
- `Gates.IsDesignTheSame` and `Gates.IsDesignTheSameForSerialization` require a current design whenever there is a previous one. The source reads the current design unguarded, and `keep` (from `utils/object`, not part of this model) is taken to pick the named keys.
- `Reducers.RequestWriteCachedGeometry` takes the cache as a keyed object. The caller passes the solids array, whose `Object.keys` are index strings; that case is not modelled.

## Findings

| source | as written | input that shows it | evidently intended | confidence | as-written member | corrected member |
|---|---|---|---|---|---|---|
| packages/web/src/ui/flow/design.js:249-253 | the timeout tests `status.isBusy`, which no reducer writes (they write `busy`), and returns the new status bare rather than under `status` | status `{busy: true, error: undefined}` after a parameters event: the timeout returns `{status}` unchanged, so a stuck recompute is never cancelled | test `status.busy` and return `{status: {...status, busy: false, error}}` | not executed; high | `Reducers.TimeoutIgnoresBusy` | `Reducers.TimeoutGeometryRecomputeIntended` |
| packages/web/src/ui/flow/design.js:202 | the instant-update filter matches origin `'instantUpdate'`; live edits are tagged `'uiInstantUpdate'` (design.js:527) | instant update off, values `{a: 1}`, live edit `{parameterValues: {a: 2}, origin: 'uiInstantUpdate'}`: values become `{a: 2}` | match `'uiInstantUpdate'` as well as `'instantUpdate'`, so that live edits are held back while instant update is off and the error payload of a failed live edit still is | not executed; medium | `Reducers.LiveEditNotSuppressed` | `Reducers.SetDesignParametersIntended` |

The other lemmas are stated for the reducers as written. `Reducers.IntendedAgreesOutsideLiveEdits` shows that the corrected parameters reducer agrees with the as-written one for every origin except `'uiInstantUpdate'`, and `Reducers.IntendedAgreesWhenInstantUpdateOn` that it agrees for every origin while instant update is on. So the gate and pipeline lemmas about parameter events carry over to the corrected reducer except for live edits made while instant update is off.
