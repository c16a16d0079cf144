/**
 * The gates of the design flow: whether a design may be recomputed, and
 * whether two successive states are "the same" for recompute and for
 * persistence. The source compares JSON serialisations of two projections of
 * the design; here they are compared structurally. The lemmas say which
 * reducer can open which gate.
 */
module Gates {
  import opened Wrappers
  import opened DesignState
  import opened Reducers

  /** The fields of `designEqualityFields`: the inputs whose change calls for
      a recompute. Solids are a result of these and are left out. */
  datatype EqualityFields = EqualityFields(
    parameterDefinitions: seq<Value>, parameterValues: Params, mainPath: string,
    filesAndFolders: seq<Value>, vtreeMode: bool)

  /** `keep(designEqualityFields, design)` */
  function KeepEqualityFields(d: Design): EqualityFields {
    EqualityFields(d.parameterDefinitions, d.parameterValues, d.mainPath, d.filesAndFolders, d.vtreeMode)
  }

  /** A design can be recomputed once it has a name and a path. */
  predicate IsDesignValid(design: Option<Design>): (valid: bool)
    ensures valid <==> design.Some? && |design.value.name| > 0 && design.value.path != ""
  {
    design.Some? && design.value.name != "" && design.value.path != ""
  }

  /** Whether `current` needs no new recompute after `previous`. Without a
      previous design the answer is no. The source reads the current design
      unguarded, so a previous design requires a current one. */
  predicate IsDesignTheSame(previous: Option<Design>, current: Option<Design>): (same: bool)
    requires previous.Some? ==> current.Some?
    ensures previous.None? ==> !same
    ensures previous.Some? ==>
      (same <==>
        && previous.value.parameterDefinitions == current.value.parameterDefinitions
        && previous.value.parameterValues == current.value.parameterValues
        && previous.value.mainPath == current.value.mainPath
        && previous.value.filesAndFolders == current.value.filesAndFolders
        && previous.value.vtreeMode == current.value.vtreeMode)
  {
    previous.Some? && KeepEqualityFields(previous.value) == KeepEqualityFields(current.value)
  }

  /** Whether `current` needs no new save after `previous`: the persisted
      projections agree. Without a previous design the answer is no. */
  predicate IsDesignTheSameForSerialization(previous: Option<Design>, current: Option<Design>): (same: bool)
    requires previous.Some? ==> current.Some?
    ensures previous.None? ==> !same
    ensures previous.Some? ==>
      (same <==>
        && previous.value.name == current.value.name
        && previous.value.mainPath == current.value.mainPath
        && previous.value.origin == current.value.origin
        && previous.value.parameterValues == current.value.parameterValues
        && previous.value.vtreeMode == current.value.vtreeMode
        && previous.value.autoReload == current.value.autoReload
        && previous.value.instantUpdate == current.value.instantUpdate
        && previous.value.solidsTimeOut == current.value.solidsTimeOut)
  {
    previous.Some? && RequestSaveSettings(previous.value) == RequestSaveSettings(current.value)
  }

  // ---------------------------------------------------------------------
  // the recompute gate is an equivalence on existing designs

  lemma SameIsReflexive(d: Design)
    ensures IsDesignTheSame(Some(d), Some(d))
    ensures IsDesignTheSameForSerialization(Some(d), Some(d))
  {
  }

  lemma SameIsSymmetric(a: Design, b: Design)
    ensures IsDesignTheSame(Some(a), Some(b)) == IsDesignTheSame(Some(b), Some(a))
  {
  }

  lemma SameIsTransitive(a: Design, b: Design, c: Design)
    requires IsDesignTheSame(Some(a), Some(b)) && IsDesignTheSame(Some(b), Some(c))
    ensures IsDesignTheSame(Some(a), Some(c))
  {
  }

  /** Two designs that agree on the five tracked fields are judged alike
      against any other design: the gate cannot see solids, the cache, the
      name, the path, the timing or the policy settings. */
  lemma SameDependsOnlyOnTrackedFields(other: Design, a: Design, b: Design)
    requires KeepEqualityFields(a) == KeepEqualityFields(b)
    ensures IsDesignTheSame(Some(other), Some(a)) == IsDesignTheSame(Some(other), Some(b))
    ensures IsDesignTheSame(Some(a), Some(other)) == IsDesignTheSame(Some(b), Some(other))
  {
  }

  /** Designs the recompute gate calls the same, with the same cache, make
      the same recompute request. */
  lemma SameDesignSameRequest(a: Design, b: Design)
    requires IsDesignTheSame(Some(a), Some(b))
    requires a.lookup == b.lookup && a.lookupCounts == b.lookupCounts
    ensures RequestGeometryRecompute(a) == RequestGeometryRecompute(b)
  {
  }

  // ---------------------------------------------------------------------
  // validity after each reducer

  lemma InitialDesignIsNotValid()
    ensures !IsDesignValid(Some(Initialize()))
  {
  }

  /** A freshly reset design is not recomputed until its content is set. */
  lemma ResetDesignIsNotValid(d: Design, origin: string)
    ensures !IsDesignValid(Some(ResetDesign(d, origin)))
  {
  }

  /** After new content, the design is valid exactly when the resolver names
      it and `dirname` gives a non-empty path. */
  lemma ContentValidity(d: Design, status: Option<Status>, viewer: Option<map<string, Value>>,
                        payload: ContentPayload, now: int, resolver: ProjectResolver, version: string)
    ensures IsDesignValid(Some(SetDesignContent(d, status, viewer, payload, now, resolver, version).design))
        <==> resolver.designName(payload.filesAndFolders, payload.path) != ""
             && resolver.dirname(payload.path) != ""
  {
  }

  // ---------------------------------------------------------------------
  // which reducer opens which gate

  /** A worker result never calls for a new recompute nor for a save, and
      does not change validity. */
  lemma SolidsOpenNoGate(d: Design, status: Option<Status>, payload: SolidsPayload, now: int,
                         catalog: ExportCatalog)
    ensures var next := SetDesignSolids(d, status, payload, now, catalog).design;
      && IsDesignTheSame(Some(d), Some(next))
      && IsDesignTheSameForSerialization(Some(d), Some(next))
      && IsDesignValid(Some(next)) == IsDesignValid(Some(d))
  {
  }

  /** New content calls for a recompute exactly when the entry point or the
      file tree changed. */
  lemma ContentRecomputeGate(d: Design, status: Option<Status>, viewer: Option<map<string, Value>>,
                             payload: ContentPayload, now: int, resolver: ProjectResolver, version: string)
    ensures var next := SetDesignContent(d, status, viewer, payload, now, resolver, version).design;
      (IsDesignTheSame(Some(d), Some(next))
       <==> d.mainPath == next.mainPath && d.filesAndFolders == payload.filesAndFolders)
  {
  }

  /** A parameters event calls for a recompute exactly when the values or
      the definitions changed. */
  lemma ParametersRecomputeGate(d: Design, status: Option<Status>, data: ParametersPayload, now: int,
                                apply: (Params, seq<Value>) -> Params)
    ensures var next := SetDesignParameters(d, status, data, now, apply).design;
      (IsDesignTheSame(Some(d), Some(next))
       <==> d.parameterValues == next.parameterValues && d.parameterDefinitions == next.parameterDefinitions)
  {
  }

  /** With instant update off, a suppressed event that brings no new
      definitions calls for no recompute. */
  lemma SuppressedUpdateNeedsNoRecompute(d: Design, status: Option<Status>, data: ParametersPayload,
                                         now: int, apply: (Params, seq<Value>) -> Params)
    requires InstantUpdateSuppressed(data, d)
    requires data.parameterDefinitions.None? || data.parameterDefinitions == Some(d.parameterDefinitions)
    ensures IsDesignTheSame(Some(d), Some(SetDesignParameters(d, status, data, now, apply).design))
  {
  }

  /** Stored settings call for a recompute exactly when they switch vtree
      mode, and for a save exactly when they change one of the four settings. */
  lemma SettingsGates(d: Design, data: SettingsPayload)
    ensures var next := SetDesignSettings(d, data);
      && (IsDesignTheSame(Some(d), Some(next)) <==> data.vtreeMode.None? || data.vtreeMode == Some(d.vtreeMode))
      && (IsDesignTheSameForSerialization(Some(d), Some(next))
          <==> data.vtreeMode.None?
               || (data.vtreeMode == Some(d.vtreeMode) && data.autoReload == d.autoReload
                   && data.instantUpdate == d.instantUpdate && data.solidsTimeOut == d.solidsTimeOut))
  {
  }

  /** The toggles: only vtree mode calls for a recompute, and only when it
      changes; each toggle calls for a save exactly when it changes its field. */
  lemma TogglesGates(d: Design, flag: bool, timeout: int)
    ensures IsDesignTheSame(Some(d), Some(ToggleAutoReload(d, flag)))
    ensures IsDesignTheSame(Some(d), Some(ToggleInstantUpdate(d, flag)))
    ensures IsDesignTheSame(Some(d), Some(SetSolidsTimeout(d, timeout)))
    ensures IsDesignTheSame(Some(d), Some(ToggleVtreeMode(d, flag))) <==> d.vtreeMode == flag
    ensures IsDesignTheSameForSerialization(Some(d), Some(ToggleAutoReload(d, flag)))
            <==> d.autoReload == Some(flag)
    ensures IsDesignTheSameForSerialization(Some(d), Some(ToggleInstantUpdate(d, flag)))
            <==> d.instantUpdate == Some(flag)
    ensures IsDesignTheSameForSerialization(Some(d), Some(ToggleVtreeMode(d, flag)))
            <==> d.vtreeMode == flag
    ensures IsDesignTheSameForSerialization(Some(d), Some(SetSolidsTimeout(d, timeout)))
            <==> d.solidsTimeOut == Some(timeout)
  {
  }

  /** Neither gate implies the other: a design renamed is the same for
      recompute but not for saving, and one with new definitions is the same
      for saving but not for recompute. */
  lemma GatesAreIndependent(d: Design, name: string, definitions: seq<Value>)
    requires name != d.name && definitions != d.parameterDefinitions
    ensures IsDesignTheSame(Some(d), Some(d.(name := name)))
    ensures !IsDesignTheSameForSerialization(Some(d), Some(d.(name := name)))
    ensures !IsDesignTheSame(Some(d), Some(d.(parameterDefinitions := definitions)))
    ensures IsDesignTheSameForSerialization(Some(d), Some(d.(parameterDefinitions := definitions)))
  {
  }
}
