/** The interpreter: single-state execution (`runState`) and the control
    loop that walks a workflow from its start state to a terminal state (`run`). */
module StateMachine {
  import opened Wrappers
  import opened JsonDoc
  import opened Paths
  import opened PathResolver
  import opened ResultComposer
  import opened RunStateResults
  import opened Definitions

  /** Stand-ins for the external resources a Task state invokes, by resource id. */
  type Registry = map<string, Json -> Json>

  const MissingStartAt: string := "StartAt does not exist"
  const MissingResultPath: string := "ResultPath does not exist"
  const MissingResource: string := "Resource does not exist"
  const OutOfFuel: string := "no terminal state reached within the step budget"

  function StateNotFound(name: string): string {
    "State does not exist: " + name
  }

  function UnregisteredResource(id: string): string {
    "Resource is not registered: " + id
  }

  function NothingSelected(path: Path): string {
    "InputPath matches nothing: " + Render(path)
  }

  /** The state's input per its InputPath; a path that addresses nothing is an error. */
  function Selected(spec: StateSpec, doc: Json): (r: Result<Json>)
    ensures r.Ok? <==> SelectInput(doc, spec.inputPath).Some?
    ensures r.Ok? ==> r.value == SelectInput(doc, spec.inputPath).value
    // stated against the document: the whole of it, `{}`, or what the path reads
    ensures spec.inputPath.Absent? ==> r == Ok(doc)
    ensures spec.inputPath.Null? ==> r == Ok(EmptyObject)
    ensures spec.inputPath.At? ==>
              && (r.Ok? <==> Read(doc, spec.inputPath.path).Some?)
              && (r.Ok? ==> r.value == Read(doc, spec.inputPath.path).value)
    ensures r.Err? ==> spec.inputPath.At? && r.msg == NothingSelected(spec.inputPath.path)
  {
    match SelectInput(doc, spec.inputPath)
    case Some(v) => Ok(v)
    case None => Err(NothingSelected(spec.inputPath.path))
  }

  /** The value a Task or Pass state produces before it is merged into the document:
      a Task hands its selected input to its resource; a Pass yields its literal
      `Input` if it has one and its selected input otherwise. */
  function Output(spec: StateSpec, resources: Registry, doc: Json): (r: Result<Json>)
    requires spec.kind.Task? || spec.kind.Pass?
    ensures spec.kind.Task? ==>
              (r.Ok? <==> && SelectInput(doc, spec.inputPath).Some?
                          && spec.resource.Some?
                          && spec.resource.value in resources)
    ensures spec.kind.Task? && r.Ok? ==>
              r.value == resources[spec.resource.value](SelectInput(doc, spec.inputPath).value)
    ensures spec.kind.Pass? && spec.input.Some? ==> r == Ok(spec.input.value)
    ensures spec.kind.Pass? && spec.input.None? ==>
              (r.Ok? <==> SelectInput(doc, spec.inputPath).Some?)
    ensures spec.kind.Pass? && spec.input.None? && r.Ok? ==>
              r.value == SelectInput(doc, spec.inputPath).value
  {
    if spec.kind.Task? then
      var arg :- Selected(spec, doc);
      if spec.resource.None? then Err(MissingResource)
      else if spec.resource.value !in resources then Err(UnregisteredResource(spec.resource.value))
      else Ok(resources[spec.resource.value](arg))
    else if spec.input.Some? then Ok(spec.input.value)
    else Selected(spec, doc)
  }

  /** Executes one decoded state against a document. */
  function Execute(spec: StateSpec, resources: Registry, doc: Json): (r: Result<RunStateResult>)
    // every produced result keeps the RunStateResult invariant and names its kind
    ensures r.Ok? ==> r.value.Valid() && r.value.stateType == KindName(spec.kind)
    // terminality comes from the kind and End alone; a terminal result names no successor
    ensures r.Ok? ==> (r.value.isTerminalState <==> spec.Terminal())
    ensures r.Ok? && r.value.isTerminalState ==> r.value.nextStateName.None?
    ensures r.Ok? && !r.value.isTerminalState ==> r.value.nextStateName == spec.next
    // a non-terminal state that names no successor never succeeds
    ensures !spec.Terminal() && spec.next.None? ==> r.Err?
    // Succeed and Fail hand the document on unchanged
    ensures spec.kind.Succeed? || spec.kind.Fail? ==> r.Ok? && r.value.data == doc
    // Task and Pass succeed exactly when an output exists, a ResultPath is declared,
    // and the state either ends the run or names its successor
    ensures spec.kind.Task? || spec.kind.Pass? ==>
              (r.Ok? <==> && Output(spec, resources, doc).Ok?
                          && spec.resultPath.Some?
                          && (spec.isEnd || spec.next.Some?))
    ensures (spec.kind.Task? || spec.kind.Pass?) && Output(spec, resources, doc).Ok?
            && spec.resultPath.Some? && !spec.isEnd && spec.next.None? ==>
              r == Err(NonTerminalWithoutNext)
    // the output lands at ResultPath and nothing beside that path changes
    ensures (spec.kind.Task? || spec.kind.Pass?) && r.Ok? ==>
              && Read(r.value.data, spec.resultPath.value) == Some(Output(spec, resources, doc).value)
              && forall q :: Diverge(spec.resultPath.value, q) ==> Read(r.value.data, q) == Read(doc, q)
  {
    if spec.kind.Succeed? || spec.kind.Fail? then
      MakeResult(doc, KindName(spec.kind), None, true)
    else
      var out :- Output(spec, resources, doc);
      if spec.resultPath.None? then Err(MissingResultPath)
      else
        var data := MergeResult(doc, spec.resultPath.value, out);
        MakeResult(data, KindName(spec.kind), if spec.isEnd then None else spec.next, spec.isEnd)
  }

  /** The declaration of state `name`, looked up under the definition's `States`. */
  function LookupState(definition: Json, name: string): (r: Result<Json>)
    ensures r.Ok? <==> Member(definition, "States").Some? && Member(Member(definition, "States").value, name).Some?
    ensures r.Ok? ==> r.value == Member(Member(definition, "States").value, name).value
    ensures r.Err? ==> r.msg == StateNotFound(name)
  {
    match Member(definition, "States")
    case None => Err(StateNotFound(name))
    case Some(states) =>
      match Member(states, name)
      case None => Err(StateNotFound(name))
      case Some(state) => Ok(state)
  }

  /** `runState`: executes the state called `name` on `doc`. */
  function RunState(definition: Json, resources: Registry, name: string, doc: Json)
    : (r: Result<RunStateResult>)
    ensures r.Ok? ==> r.value.Valid()
    ensures r.Ok? && r.value.isTerminalState ==> r.value.nextStateName.None?
    ensures LookupState(definition, name).Ok?
            && Classify(TypeName(LookupState(definition, name).value)).Invalid? ==>
              r == Err(InvalidType(TypeName(LookupState(definition, name).value)))
  {
    var state :- LookupState(definition, name);
    var spec :- DecodeState(state);
    Execute(spec, resources, doc)
  }

  /** One state execution: the state's name and document in, its result out. */
  type Step = (string, Json) -> Result<RunStateResult>

  /** The control loop from state `name` over any single-step function, allowed at
      most `fuel` steps. A result that is neither terminal nor names a successor
      cannot leave `RunState`; the loop refuses it all the same. */
  function Loop(step: Step, name: string, doc: Json, fuel: nat): (r: Result<RunStateResult>)
    ensures r.Ok? ==> r.value.isTerminalState
    decreases fuel
  {
    if fuel == 0 then Err(OutOfFuel)
    else
      var result :- step(name, doc);
      if result.isTerminalState then Ok(result)
      else
        match result.nextStateName
        case None => Err(NonTerminalWithoutNext)
        case Some(next) => Loop(step, next, result.data, fuel - 1)
  }

  function Runner(definition: Json, resources: Registry): Step {
    (name: string, doc: Json) => RunState(definition, resources, name, doc)
  }

  /** `run`: checks `StartAt`, then runs from that state until a terminal state.
      The result is the terminal state's RunStateResult, whose `data` is the final document. */
  function Run(definition: Json, resources: Registry, input: Json, fuel: nat)
    : (r: Result<RunStateResult>)
    ensures (Member(definition, "StartAt").None? || !Member(definition, "StartAt").value.JString?) ==>
              r == Err(MissingStartAt)
    ensures r.Ok? ==> r.value.isTerminalState
  {
    match Member(definition, "StartAt")
    case Some(JString(start)) => Loop(Runner(definition, resources), start, input, fuel)
    case _ => Err(MissingStartAt)
  }

  /** The control loop written as the loop it is, agreeing with `Run` on every input. */
  method RunMachine(definition: Json, resources: Registry, input: Json, fuel: nat)
    returns (r: Result<RunStateResult>)
    ensures r == Run(definition, resources, input, fuel)
  {
    var startField := Member(definition, "StartAt");
    if startField.None? || !startField.value.JString? {
      return Err(MissingStartAt);
    }
    r := StepMachine(Runner(definition, resources), startField.value.s, input, fuel);
  }

  /** Steps from state `name` until a terminal state, an error, or the budget runs out. */
  method StepMachine(step: Step, name: string, doc: Json, fuel: nat) returns (r: Result<RunStateResult>)
    ensures r == Loop(step, name, doc, fuel)
  {
    var current := name;
    var data := doc;
    var budget := fuel;
    while budget > 0
      invariant Loop(step, current, data, budget) == Loop(step, name, doc, fuel)
      decreases budget
    {
      var result := step(current, data);
      if result.Err? {
        return Err(result.msg);
      }
      if result.value.isTerminalState {
        return result;
      }
      if result.value.nextStateName.None? {
        return Err(NonTerminalWithoutNext);
      }
      current := result.value.nextStateName.value;
      data := result.value.data;
      budget := budget - 1;
    }
    return Err(OutOfFuel);
  }

  /** The transition laws of `runState`, stated on the fields of the state's declaration:
      the result names the declared `Type`; `End: true` ends the run with no successor;
      otherwise the successor is the declared `Next`; a Task or Pass state with neither
      is refused; Succeed and Fail end the run with the document unchanged. */
  lemma RunStateTransitions(definition: Json, resources: Registry, name: string, doc: Json, state: Json)
    requires LookupState(definition, name) == Ok(state)
    ensures RunState(definition, resources, name, doc).Ok? ==>
              RunState(definition, resources, name, doc).value.stateType == TypeName(state)
    ensures RunState(definition, resources, name, doc).Ok? && Member(state, "End") == Some(JBool(true)) ==>
              && RunState(definition, resources, name, doc).value.isTerminalState
              && RunState(definition, resources, name, doc).value.nextStateName.None?
    ensures RunState(definition, resources, name, doc).Ok? && !RunState(definition, resources, name, doc).value.isTerminalState ==>
              Member(state, "Next") == Some(JString(RunState(definition, resources, name, doc).value.nextStateName.value))
    ensures (TypeName(state) == "Task" || TypeName(state) == "Pass")
            && Member(state, "End") != Some(JBool(true)) && Member(state, "Next").None? ==>
              RunState(definition, resources, name, doc).Err?
    ensures (TypeName(state) == "Succeed" || TypeName(state) == "Fail") && DecodeState(state).Ok? ==>
              && RunState(definition, resources, name, doc).Ok?
              && RunState(definition, resources, name, doc).value.data == doc
              && RunState(definition, resources, name, doc).value.isTerminalState
  {
    var r := RunState(definition, resources, name, doc);
    var decoded := DecodeState(state);
    if decoded.Ok? {
      var spec := decoded.value;
      assert r == Execute(spec, resources, doc);
      ClassifyKindName(spec.kind, TypeName(state));
    }
  }

  /** `runState` on a state that is found and decodes is the execution of its declaration. */
  lemma RunStateOfSpec(definition: Json, resources: Registry, name: string, doc: Json, state: Json, spec: StateSpec)
    requires LookupState(definition, name) == Ok(state)
    requires DecodeState(state) == Ok(spec)
    ensures RunState(definition, resources, name, doc) == Execute(spec, resources, doc)
  {
  }

  /** A run whose start state ends the run returns that state's result. */
  lemma RunStopsAtTerminalStart(
    definition: Json, resources: Registry, start: string, input: Json, fuel: nat, result: RunStateResult)
    requires Member(definition, "StartAt") == Some(JString(start))
    requires RunState(definition, resources, start, input) == Ok(result) && result.isTerminalState
    requires fuel >= 1
    ensures Run(definition, resources, input, fuel) == Ok(result)
  {
    assert Runner(definition, resources)(start, input) == Ok(result);
  }

  /** `runState` reads nothing of the definition but its `States`; in particular
      it runs the named state whatever `StartAt` says, or when there is none. */
  lemma RunStateReadsOnlyStates(d1: Json, d2: Json, resources: Registry, name: string, doc: Json)
    requires Member(d1, "States") == Member(d2, "States")
    ensures RunState(d1, resources, name, doc) == RunState(d2, resources, name, doc)
  {
  }

  /** Two single-step functions that agree everywhere drive identical runs. */
  lemma {:induction false} LoopSameSteps(s1: Step, s2: Step, name: string, doc: Json, fuel: nat)
    requires forall n, d :: s1(n, d) == s2(n, d)
    ensures Loop(s1, name, doc, fuel) == Loop(s2, name, doc, fuel)
    decreases fuel
  {
    if fuel > 0 {
      var result := s1(name, doc);
      assert result == s2(name, doc);
      if result.Ok? && !result.value.isTerminalState && result.value.nextStateName.Some? {
        LoopSameSteps(s1, s2, result.value.nextStateName.value, result.value.data, fuel - 1);
      }
    }
  }

  /** Fields of the definition other than `StartAt` and `States` (a `Comment`, say)
      do not affect a run. */
  lemma RunIgnoresOtherFields(
    fields: map<string, Json>, key: string, extra: Json, resources: Registry, input: Json, fuel: nat)
    requires key != "StartAt" && key != "States"
    ensures Run(JObject(fields[key := extra]), resources, input, fuel) == Run(JObject(fields), resources, input, fuel)
  {
    var d1 := JObject(fields[key := extra]);
    var d2 := JObject(fields);
    assert Member(d1, "StartAt") == Member(d2, "StartAt");
    assert Member(d1, "States") == Member(d2, "States");
    forall n, d ensures Runner(d1, resources)(n, d) == Runner(d2, resources)(n, d) {
      RunStateReadsOnlyStates(d1, d2, resources, n, d);
    }
    if Member(d1, "StartAt").Some? && Member(d1, "StartAt").value.JString? {
      LoopSameSteps(Runner(d1, resources), Runner(d2, resources), Member(d1, "StartAt").value.s, input, fuel);
    }
  }

  /** A larger step budget never changes a run that already finished. */
  lemma {:induction false} LoopMoreFuel(step: Step, name: string, doc: Json, fuel: nat, more: nat)
    requires Loop(step, name, doc, fuel).Ok?
    requires fuel <= more
    ensures Loop(step, name, doc, more) == Loop(step, name, doc, fuel)
    decreases fuel
  {
    var result := step(name, doc);
    if !result.value.isTerminalState {
      LoopMoreFuel(step, result.value.nextStateName.value, result.value.data, fuel - 1, more - 1);
    }
  }

  /** If every terminal step result names no successor, neither does the run's result. */
  lemma {:induction false} LoopEndsWithoutSuccessor(step: Step, name: string, doc: Json, fuel: nat)
    requires forall n, d :: step(n, d).Ok? && step(n, d).value.isTerminalState ==> step(n, d).value.nextStateName.None?
    requires Loop(step, name, doc, fuel).Ok?
    ensures Loop(step, name, doc, fuel).value.nextStateName.None?
    decreases fuel
  {
    var result := step(name, doc);
    if !result.value.isTerminalState {
      LoopEndsWithoutSuccessor(step, result.value.nextStateName.value, result.value.data, fuel - 1);
    }
  }

  /** A finished run ends on a terminal state that names no successor. */
  lemma RunEndsWithoutSuccessor(definition: Json, resources: Registry, input: Json, fuel: nat)
    requires Run(definition, resources, input, fuel).Ok?
    ensures Run(definition, resources, input, fuel).value.isTerminalState
    ensures Run(definition, resources, input, fuel).value.nextStateName.None?
  {
    var step := Runner(definition, resources);
    forall n, d | step(n, d).Ok? && step(n, d).value.isTerminalState
      ensures step(n, d).value.nextStateName.None?
    {
      assert step(n, d) == RunState(definition, resources, n, d);
    }
    LoopEndsWithoutSuccessor(step, Member(definition, "StartAt").value.s, input, fuel);
  }

  /** Any error of the start state aborts the run with that same error. */
  lemma RunPropagatesStartError(definition: Json, resources: Registry, start: string, input: Json, fuel: nat)
    requires Member(definition, "StartAt") == Some(JString(start))
    requires fuel > 0 && RunState(definition, resources, start, input).Err?
    ensures Run(definition, resources, input, fuel) == Err(RunState(definition, resources, start, input).msg)
  {
  }
}
