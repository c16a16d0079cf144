/**
 * The state owned by the design flow of the web UI: the design record, its
 * sibling status record, and the zero-value design built by `initialize`.
 */
module DesignState {
  import opened Wrappers

  /** A JSON value: the shape of file nodes, parameter definitions and values,
      solids, geometry-cache entries and viewer settings. Numbers are integers. */
  datatype Value =
    | Null
    | Bool(b: bool)
    | Num(n: int)
    | Str(s: string)
    | Arr(items: seq<Value>)
    | Obj(fields: map<string, Value>)

  /** Parameter values (or defaults), keyed by parameter name. */
  type Params = map<string, Value>

  /** Timing of the most recent recompute, in milliseconds since the epoch. */
  datatype Debug = Debug(startTime: int, endTime: int, totalTime: int)

  /** The design record. A field that JavaScript may leave `undefined` is an
      `Option`: `origin` starts undefined and `parametersOrigin` is absent until
      parameters are first set; `autoReload`, `instantUpdate` and
      `solidsTimeOut` become undefined when a stored settings payload lacks them. */
  datatype Design = Design(
    name: string,
    path: string,
    mainPath: string,
    origin: Option<string>,
    filesAndFolders: seq<Value>,
    instantUpdate: Option<bool>,
    autoReload: Option<bool>,
    convertSupportedTypes: bool,
    parameterDefinitions: seq<Value>,
    parameterValues: Params,
    parameterDefaults: Params,
    parametersOrigin: Option<string>,
    solidsTimeOut: Option<int>,
    solids: seq<Value>,
    vtreeMode: bool,
    lookup: map<string, Value>,
    lookupCounts: map<string, int>,
    debug: Debug)

  /** The status record. A flag the record does not carry reads as false:
      the reducers only ever test these for truth. `isBusy` is never written
      by the design reducers; `busy` is. */
  datatype Status = Status(busy: bool, isBusy: bool, error: Option<string>)

  /** The status `Object.assign({}, undefined, ...)` starts from. */
  const EmptyStatus: Status := Status(false, false, None)

  const DefaultSolidsTimeOut: int := 80000

  /** `state.status` as the first source of `Object.assign`: an undefined
      status contributes no fields. */
  function StatusOrEmpty(status: Option<Status>): Status {
    status.GetOr(EmptyStatus)
  }

  /** The zero-value design. */
  function Initialize(): (d: Design)
    ensures d.name == "" && d.path == "" && d.mainPath == "" && d.origin == None
    ensures d.filesAndFolders == [] && d.solids == [] && d.parameterDefinitions == []
    ensures d.parameterValues == map[] && d.parameterDefaults == map[]
    ensures d.lookup == map[] && d.lookupCounts == map[]
    ensures d.instantUpdate == Some(true) && d.autoReload == Some(true)
    ensures !d.convertSupportedTypes && !d.vtreeMode
    ensures d.solidsTimeOut == Some(DefaultSolidsTimeOut)
    ensures d.parametersOrigin == None
    ensures d.debug == Debug(0, 0, 0)
  {
    Design(
      name := "",
      path := "",
      mainPath := "",
      origin := None,
      filesAndFolders := [],
      instantUpdate := Some(true),
      autoReload := Some(true),
      convertSupportedTypes := false,
      parameterDefinitions := [],
      parameterValues := map[],
      parameterDefaults := map[],
      parametersOrigin := None,
      solidsTimeOut := Some(DefaultSolidsTimeOut),
      solids := [],
      vtreeMode := false,
      lookup := map[],
      lookupCounts := map[],
      debug := Debug(0, 0, 0))
  }
}
