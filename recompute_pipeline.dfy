/**
 * The recompute-request pipeline of the design flow: the stream of states is
 * passed through `skipRepeatsWith(isDesignTheSame)`, then filtered by
 * `isDesignValid`, then projected to recompute requests. A stream is a finite
 * sequence of the designs its states hold (`None` for a state without one).
 *
 * `skipRepeatsWith` is taken to keep the first state and then drop every
 * state the gate calls the same as the last state KEPT. The main result is
 * that, because the gate is an equivalence, this is the same as keeping every
 * state that differs from the state just before it; from that follows what
 * one more state adds to the requests.
 */
module RecomputePipeline {
  import opened Wrappers
  import opened DesignState
  import opened Reducers
  import opened Gates

  /** Once a state holds a design, every later state holds one (every
      reducer returns a design). */
  predicate DesignNeverDisappears(states: seq<Option<Design>>) {
    forall i, j :: 0 <= i < j < |states| && states[i].Some? ==> states[j].Some?
  }

  /** `rest` may follow `last`: if `last` holds a design, so does every state of `rest`. */
  predicate Follows(last: Option<Design>, rest: seq<Option<Design>>) {
    last.Some? ==> forall i :: 0 <= i < |rest| ==> rest[i].Some?
  }

  /** `skipRepeatsWith(isDesignTheSame)` over `rest`, once `last` has been kept. */
  function SkipRepeatsAfter(last: Option<Design>, rest: seq<Option<Design>>): (kept: seq<Option<Design>>)
    requires Follows(last, rest) && DesignNeverDisappears(rest)
    ensures |kept| <= |rest|
    ensures forall x :: x in kept ==> x in rest
    decreases |rest|
  {
    if rest == [] then []
    else if IsDesignTheSame(last, rest[0]) then SkipRepeatsAfter(last, rest[1..])
    else [rest[0]] + SkipRepeatsAfter(rest[0], rest[1..])
  }

  /** `skipRepeatsWith(isDesignTheSame)`: the first state is always kept. */
  function SkipRepeats(states: seq<Option<Design>>): (kept: seq<Option<Design>>)
    requires DesignNeverDisappears(states)
    ensures |kept| <= |states|
    ensures forall x :: x in kept ==> x in states
  {
    if states == [] then [] else [states[0]] + SkipRepeatsAfter(states[0], states[1..])
  }

  /** Reference: the states of `rest` that differ from the state just before
      them, `prev` being the state before `rest`. */
  function ChangedAfter(prev: Option<Design>, rest: seq<Option<Design>>): seq<Option<Design>>
    requires Follows(prev, rest) && DesignNeverDisappears(rest)
    decreases |rest|
  {
    if rest == [] then []
    else (if IsDesignTheSame(prev, rest[0]) then [] else [rest[0]]) + ChangedAfter(rest[0], rest[1..])
  }

  /** Reference: the first state and every state that differs from its predecessor. */
  function ChangedStates(states: seq<Option<Design>>): seq<Option<Design>>
    requires DesignNeverDisappears(states)
  {
    if states == [] then [] else [states[0]] + ChangedAfter(states[0], states[1..])
  }

  /** `r` is the recompute request of some valid state of `states`. */
  predicate RequestOfValidState(r: RecomputeRequest, states: seq<Option<Design>>) {
    exists i :: 0 <= i < |states| && IsDesignValid(states[i]) && r == RequestGeometryRecompute(states[i].value)
  }

  /** `.filter(isDesignValid).map(requestGeometryRecompute)` */
  function ValidRequests(states: seq<Option<Design>>): (requests: seq<RecomputeRequest>)
    ensures |requests| <= |states|
    ensures forall k :: 0 <= k < |requests| ==> RequestOfValidState(requests[k], states)
  {
    if states == [] then []
    else
      var tail := ValidRequests(states[1..]);
      var head := if IsDesignValid(states[0]) then [RequestGeometryRecompute(states[0].value)] else [];
      assert forall k :: 0 <= k < |tail| ==> RequestOfValidState(tail[k], states) by {
        forall k | 0 <= k < |tail| ensures RequestOfValidState(tail[k], states) {
          var i :| 0 <= i < |states[1..]| && IsDesignValid(states[1..][i])
                   && tail[k] == RequestGeometryRecompute(states[1..][i].value);
          assert states[1..][i] == states[i + 1];
        }
      }
      assert head != [] ==> RequestOfValidState(head[0], states) by {
        if head != [] { assert IsDesignValid(states[0]); }
      }
      head + tail
  }

  /** The recompute requests the stream of states gives rise to: each is
      the request of a valid state of the stream. */
  function RecomputeRequests(states: seq<Option<Design>>): (requests: seq<RecomputeRequest>)
    requires DesignNeverDisappears(states)
    ensures |requests| <= |states|
    ensures forall k :: 0 <= k < |requests| ==> RequestOfValidState(requests[k], states)
  {
    var kept := SkipRepeats(states);
    var requests := ValidRequests(kept);
    assert forall k :: 0 <= k < |requests| ==> RequestOfValidState(requests[k], states) by {
      forall k | 0 <= k < |requests| ensures RequestOfValidState(requests[k], states) {
        var i :| 0 <= i < |kept| && IsDesignValid(kept[i]) && requests[k] == RequestGeometryRecompute(kept[i].value);
        assert kept[i] in kept;
        var j :| 0 <= j < |states| && states[j] == kept[i];
      }
    }
    requests
  }

  // ---------------------------------------------------------------------
  // lemmas

  lemma NeverDisappearsTail(states: seq<Option<Design>>)
    requires |states| > 0 && DesignNeverDisappears(states)
    ensures DesignNeverDisappears(states[1..]) && Follows(states[0], states[1..])
  {
    forall i, j | 0 <= i < j < |states[1..]| && states[1..][i].Some?
      ensures states[1..][j].Some?
    {
      assert states[1..][i] == states[i + 1] && states[1..][j] == states[j + 1];
    }
  }

  /** Skipping against the last state kept is skipping against the previous
      state, whenever the two are alike for the gate. */
  lemma {:induction false} SkipRepeatsAfterMatchesChanges(last: Option<Design>, prev: Option<Design>,
                                                          rest: seq<Option<Design>>)
    requires Follows(last, rest) && Follows(prev, rest) && DesignNeverDisappears(rest)
    requires last == prev || (last.Some? && prev.Some? && IsDesignTheSame(last, prev))
    ensures SkipRepeatsAfter(last, rest) == ChangedAfter(prev, rest)
    decreases |rest|
  {
    if rest != [] {
      NeverDisappearsTail(rest);
      if IsDesignTheSame(last, rest[0]) {
        SkipRepeatsAfterMatchesChanges(last, rest[0], rest[1..]);
      } else {
        SkipRepeatsAfterMatchesChanges(rest[0], rest[0], rest[1..]);
      }
    }
  }

  /** `skipRepeatsWith(isDesignTheSame)` keeps exactly the first state and
      the states that differ from their predecessor. */
  lemma SkipRepeatsKeepsChanges(states: seq<Option<Design>>)
    requires DesignNeverDisappears(states)
    ensures SkipRepeats(states) == ChangedStates(states)
  {
    if states != [] {
      NeverDisappearsTail(states);
      SkipRepeatsAfterMatchesChanges(states[0], states[0], states[1..]);
    }
  }

  lemma NeverDisappearsPrefix(states: seq<Option<Design>>, y: Option<Design>)
    requires DesignNeverDisappears(states + [y])
    ensures DesignNeverDisappears(states)
    ensures |states| > 0 && states[|states| - 1].Some? ==> y.Some?
  {
    forall i, j | 0 <= i < j < |states| && states[i].Some?
      ensures states[j].Some?
    {
      assert (states + [y])[i] == states[i] && (states + [y])[j] == states[j];
    }
    if |states| > 0 {
      assert (states + [y])[|states| - 1] == states[|states| - 1] && (states + [y])[|states|] == y;
    }
  }

  /** What one more state adds to the changed states. */
  lemma {:induction false} ChangedAfterAppend(prev: Option<Design>, rest: seq<Option<Design>>, y: Option<Design>)
    requires Follows(prev, rest + [y]) && DesignNeverDisappears(rest + [y])
    ensures Follows(prev, rest) && DesignNeverDisappears(rest)
    ensures var last := if rest == [] then prev else rest[|rest| - 1];
      (last.Some? ==> y.Some?)
      && ChangedAfter(prev, rest + [y])
         == ChangedAfter(prev, rest) + (if IsDesignTheSame(last, y) then [] else [y])
    decreases |rest|
  {
    NeverDisappearsPrefix(rest, y);
    assert Follows(prev, rest) by {
      if prev.Some? {
        forall i | 0 <= i < |rest| ensures rest[i].Some? {
          assert (rest + [y])[i] == rest[i];
        }
      }
    }
    if prev.Some? {
      assert (rest + [y])[|rest|] == y;
    }
    if rest != [] {
      var whole := rest + [y];
      assert whole[0] == rest[0] && whole[1..] == rest[1..] + [y];
      NeverDisappearsTail(whole);
      ChangedAfterAppend(rest[0], rest[1..], y);
    }
  }

  lemma {:induction false} ValidRequestsAppend(xs: seq<Option<Design>>, ys: seq<Option<Design>>)
    ensures ValidRequests(xs + ys) == ValidRequests(xs) + ValidRequests(ys)
    decreases |xs|
  {
    if xs != [] {
      assert (xs + ys)[0] == xs[0] && (xs + ys)[1..] == xs[1..] + ys;
      ValidRequestsAppend(xs[1..], ys);
    } else {
      assert xs + ys == ys;
    }
  }

  /** What one more state adds to the first state and the changes. */
  lemma ChangedStatesAppend(states: seq<Option<Design>>, y: Option<Design>)
    requires |states| > 0 && DesignNeverDisappears(states + [y])
    ensures DesignNeverDisappears(states)
    ensures states[|states| - 1].Some? ==> y.Some?
    ensures ChangedStates(states + [y])
            == ChangedStates(states) + (if IsDesignTheSame(states[|states| - 1], y) then [] else [y])
  {
    NeverDisappearsPrefix(states, y);
    var whole := states + [y];
    NeverDisappearsTail(whole);
    NeverDisappearsTail(states);
    assert whole[0] == states[0] && whole[1..] == states[1..] + [y];
    ChangedAfterAppend(states[0], states[1..], y);
    assert (if states[1..] == [] then states[0] else states[1..][|states[1..]| - 1]) == states[|states| - 1];
  }

  /** One more state adds one recompute request exactly when the gate says
      it differs from the state before it and it is valid; the request is
      that state's projection. */
  lemma RecomputeRequestsAppend(states: seq<Option<Design>>, y: Option<Design>)
    requires |states| > 0 && DesignNeverDisappears(states + [y])
    ensures DesignNeverDisappears(states)
    ensures states[|states| - 1].Some? ==> y.Some?
    ensures RecomputeRequests(states + [y])
            == RecomputeRequests(states)
               + (if !IsDesignTheSame(states[|states| - 1], y) && IsDesignValid(y)
                  then [RequestGeometryRecompute(y.value)] else [])
  {
    ChangedStatesAppend(states, y);
    SkipRepeatsKeepsChanges(states + [y]);
    SkipRepeatsKeepsChanges(states);
    var extra := if IsDesignTheSame(states[|states| - 1], y) then [] else [y];
    ValidRequestsAppend(ChangedStates(states), extra);
  }

  // ---------------------------------------------------------------------
  // consequences for the reducers

  /** A worker result never gives rise to a recompute request: the result
      would otherwise trigger the recompute that produced it, forever. */
  lemma WorkerResultRequestsNothing(states: seq<Option<Design>>, d: Design, status: Option<Status>,
                                    payload: SolidsPayload, now: int, catalog: ExportCatalog)
    requires |states| > 0 && states[|states| - 1] == Some(d) && DesignNeverDisappears(states)
    ensures DesignNeverDisappears(states + [Some(SetDesignSolids(d, status, payload, now, catalog).design)])
    ensures RecomputeRequests(states + [Some(SetDesignSolids(d, status, payload, now, catalog).design)])
            == RecomputeRequests(states)
  {
    var y := Some(SetDesignSolids(d, status, payload, now, catalog).design);
    AppendKeepsDesign(states, y);
    RecomputeRequestsAppend(states, y);
    SolidsOpenNoGate(d, status, payload, now, catalog);
  }

  /** A reset never gives rise to a recompute request: the reset design has
      no name. */
  lemma ResetRequestsNothing(states: seq<Option<Design>>, d: Design, origin: string)
    requires |states| > 0 && states[|states| - 1] == Some(d) && DesignNeverDisappears(states)
    ensures DesignNeverDisappears(states + [Some(ResetDesign(d, origin))])
    ensures RecomputeRequests(states + [Some(ResetDesign(d, origin))]) == RecomputeRequests(states)
  {
    var y := Some(ResetDesign(d, origin));
    AppendKeepsDesign(states, y);
    RecomputeRequestsAppend(states, y);
    ResetDesignIsNotValid(d, origin);
  }

  /** On a valid design, a parameters event that changes the values gives
      rise to exactly one request, carrying the new values. */
  lemma ParameterChangeRequestsOnce(states: seq<Option<Design>>, d: Design, status: Option<Status>,
                                    data: ParametersPayload, now: int, apply: (Params, seq<Value>) -> Params)
    requires |states| > 0 && states[|states| - 1] == Some(d) && DesignNeverDisappears(states)
    requires IsDesignValid(Some(d))
    requires SetDesignParameters(d, status, data, now, apply).design.parameterValues != d.parameterValues
    ensures var next := SetDesignParameters(d, status, data, now, apply).design;
      DesignNeverDisappears(states + [Some(next)])
      && RecomputeRequests(states + [Some(next)]) == RecomputeRequests(states) + [RequestGeometryRecompute(next)]
      && RequestGeometryRecompute(next).parameterValues == next.parameterValues
  {
    var next := SetDesignParameters(d, status, data, now, apply).design;
    AppendKeepsDesign(states, Some(next));
    RecomputeRequestsAppend(states, Some(next));
  }

  /** A toggle of auto-reload, instant update or the timeout never gives
      rise to a recompute request. */
  lemma PolicyToggleRequestsNothing(states: seq<Option<Design>>, d: Design, flag: bool, timeout: int)
    requires |states| > 0 && states[|states| - 1] == Some(d) && DesignNeverDisappears(states)
    ensures DesignNeverDisappears(states + [Some(ToggleAutoReload(d, flag))])
    ensures RecomputeRequests(states + [Some(ToggleAutoReload(d, flag))]) == RecomputeRequests(states)
    ensures DesignNeverDisappears(states + [Some(ToggleInstantUpdate(d, flag))])
    ensures RecomputeRequests(states + [Some(ToggleInstantUpdate(d, flag))]) == RecomputeRequests(states)
    ensures DesignNeverDisappears(states + [Some(SetSolidsTimeout(d, timeout))])
    ensures RecomputeRequests(states + [Some(SetSolidsTimeout(d, timeout))]) == RecomputeRequests(states)
  {
    TogglesGates(d, flag, timeout);
    AppendKeepsDesign(states, Some(ToggleAutoReload(d, flag)));
    RecomputeRequestsAppend(states, Some(ToggleAutoReload(d, flag)));
    AppendKeepsDesign(states, Some(ToggleInstantUpdate(d, flag)));
    RecomputeRequestsAppend(states, Some(ToggleInstantUpdate(d, flag)));
    AppendKeepsDesign(states, Some(SetSolidsTimeout(d, timeout)));
    RecomputeRequestsAppend(states, Some(SetSolidsTimeout(d, timeout)));
  }

  lemma AppendKeepsDesign(states: seq<Option<Design>>, y: Option<Design>)
    requires DesignNeverDisappears(states) && y.Some?
    ensures DesignNeverDisappears(states + [y])
  {
    forall i, j | 0 <= i < j < |states + [y]| && (states + [y])[i].Some?
      ensures (states + [y])[j].Some?
    {
      if j < |states| {
        assert (states + [y])[i] == states[i] && (states + [y])[j] == states[j];
      }
    }
  }

  // ---------------------------------------------------------------------
  // a fresh start, end to end

  /** Start from the zero-value design; a stored settings reply without
      `vtreeMode` is ignored; new content with entry point `index.js` marks
      the design busy; stored parameter values `{a: 1}` are applied; each
      of the two changes gives rise to one request, the last carrying
      `{a: 1}`; the worker's solids clear `busy` and request nothing. */
  lemma FreshStart(resolver: ProjectResolver, files: seq<Value>, path: string, version: string,
                   apply: (Params, seq<Value>) -> Params, solid: Value, catalog: ExportCatalog)
    requires resolver.entryPoint(files, path) == "index.js"
    requires resolver.designName(files, path) != "" && resolver.dirname(path) != ""
    requires apply(map["a" := Num(1)], []) == map["a" := Num(1)]
    ensures var d0 := Initialize();
      var stored := map["a" := Num(1)];
      var content := SetDesignContent(d0, None, None, ContentPayload(files, path), 1, resolver, version);
      var params := SetDesignParameters(content.design, Some(content.status),
                                        ParametersPayload(Some(stored), None, None, Some("store")), 2, apply);
      var solids := SetDesignSolids(params.design, Some(params.status),
                                    SolidsPayload(Some([solid]), Some(map[]), Some(map[])), 3, catalog);
      var states := [Some(d0), Some(content.design), Some(params.design)];
      && SetDesignSettings(d0, SettingsPayload(None, Some(true), None, None)) == d0
      && content.status.busy
      && params.design.parameterValues == stored
      && DesignNeverDisappears(states + [Some(solids.design)])
      && RecomputeRequests(states) == [RequestGeometryRecompute(content.design), RequestGeometryRecompute(params.design)]
      && RequestGeometryRecompute(params.design).parameterValues == stored
      && RecomputeRequests(states + [Some(solids.design)]) == RecomputeRequests(states)
      && !solids.status.busy && solids.design.solids == [solid]
  {
    var d0 := Initialize();
    var stored := map["a" := Num(1)];
    var content := SetDesignContent(d0, None, None, ContentPayload(files, path), 1, resolver, version);
    var params := SetDesignParameters(content.design, Some(content.status),
                                      ParametersPayload(Some(stored), None, None, Some("store")), 2, apply);
    var solids := SetDesignSolids(params.design, Some(params.status),
                                  SolidsPayload(Some([solid]), Some(map[]), Some(map[])), 3, catalog);
    InitialDesignIsNotValid();
    assert RecomputeRequests([Some(d0)]) == [];
    AppendKeepsDesign([Some(d0)], Some(content.design));
    RecomputeRequestsAppend([Some(d0)], Some(content.design));
    assert [Some(d0)] + [Some(content.design)] == [Some(d0), Some(content.design)];
    assert d0.mainPath != content.design.mainPath;
    AppendKeepsDesign([Some(d0), Some(content.design)], Some(params.design));
    RecomputeRequestsAppend([Some(d0), Some(content.design)], Some(params.design));
    assert [Some(d0), Some(content.design)] + [Some(params.design)] == [Some(d0), Some(content.design), Some(params.design)];
    assert content.design.parameterValues != params.design.parameterValues by {
      assert "a" !in content.design.parameterValues;
    }
    WorkerResultRequestsNothing([Some(d0), Some(content.design), Some(params.design)], params.design,
                                Some(params.status), SolidsPayload(Some([solid]), Some(map[]), Some(map[])), 3, catalog);
  }
}
