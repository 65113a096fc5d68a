/** The interpreter's documented scenarios, each stated as a lemma about the
    model on the exact definitions and documents involved. */
module Scenarios {
  import opened Wrappers
  import opened JsonDoc
  import opened Paths
  import opened PathResolver
  import opened ResultComposer
  import opened RunStateResults
  import opened Definitions
  import opened StateMachine

  const AddId: string := "arn:aws:lambda:us-east-1:123456789012:function:Add"
  const DoubleId: string := "arn:aws:lambda:us-east-1:123456789012:function:Double"

  /** The Add stand-in: the sum of the integer members `val1` and `val2`. */
  function AddNumbers(n: Json): Json {
    match (Member(n, "val1"), Member(n, "val2"))
    case (Some(JInt(a)), Some(JInt(b))) => JInt(a + b)
    case _ => JNull
  }

  /** The Double stand-in: twice an integer. */
  function DoubleNumber(n: Json): Json {
    match n
    case JInt(a) => JInt(2 * a)
    case _ => JNull
  }

  function Resources(): Registry {
    map[AddId := AddNumbers, DoubleId := DoubleNumber]
  }

  function Numbers(): Json {
    JObject(map["val1" := JInt(3), "val2" := JInt(4)])
  }

  /** A definition holding the single state `name`, started at `start`. */
  function SingleState(start: string, name: string, state: Json): Json {
    JObject(map["StartAt" := JString(start), "States" := JObject(map[name := state])])
  }

  lemma LookupSingle(start: string, name: string, state: Json)
    ensures LookupState(SingleState(start, name, state), name) == Ok(state)
  {
  }

  // ----- the Task state adding `$.numbers` into `$.sum` -----

  function AddState(ending: string, endValue: Json): Json {
    JObject(map[
      "Type" := JString("Task"),
      "Resource" := JString(AddId),
      "InputPath" := JString("$.numbers"),
      "ResultPath" := JString("$.sum"),
      ending := endValue])
  }

  lemma AddStateMembers(ending: string, endValue: Json)
    requires ending == "End" || ending == "Next"
    ensures Member(AddState(ending, endValue), "Type") == Some(JString(KindName(Task)))
    ensures Member(AddState(ending, endValue), "Resource") == Some(JString(AddId))
    ensures Member(AddState(ending, endValue), "InputPath") == Some(JString(Render(["numbers"])))
    ensures Member(AddState(ending, endValue), "ResultPath") == Some(JString(Render(["sum"])))
    ensures Member(AddState(ending, endValue), "Input") == None
    ensures Member(AddState(ending, endValue), ending) == Some(endValue)
    ensures ending == "End" ==> Member(AddState(ending, endValue), "Next") == None
    ensures ending == "Next" ==> Member(AddState(ending, endValue), "End") == None
  {
    RenderOne("numbers");
    RenderOne("sum");
    assert "$." + "numbers" == "$.numbers";
    assert "$." + "sum" == "$.sum";
  }

  lemma DecodeAddState(state: Json, next: Option<string>, isEnd: bool)
    requires Member(state, "Type") == Some(JString(KindName(Task)))
    requires Member(state, "Resource") == Some(JString(AddId))
    requires Member(state, "InputPath") == Some(JString(Render(["numbers"])))
    requires Member(state, "ResultPath") == Some(JString(Render(["sum"])))
    requires Member(state, "Input") == None
    requires Member(state, "Next") == (if next.Some? then Some(JString(next.value)) else None)
    requires isEnd <==> Member(state, "End") == Some(JBool(true))
    ensures DecodeState(state) == Ok(StateSpec(Task, Some(AddId), At(["numbers"]), None, Some(["sum"]), next, isEnd))
  {
    DecodeFromMembers(state, StateSpec(Task, Some(AddId), At(["numbers"]), None, Some(["sum"]), next, isEnd));
  }

  function AddInput(): Json {
    JObject(map["title" := JString("Numbers to add"), "numbers" := Numbers()])
  }

  function AddOutput(): Json {
    JObject(map["title" := JString("Numbers to add"), "numbers" := Numbers(), "sum" := JInt(7)])
  }

  lemma AddRegistered()
    ensures AddId in Resources() && Resources()[AddId] == AddNumbers
  {
    assert AddId[|AddId| - 1] != DoubleId[|DoubleId| - 1];
  }

  /** The Add resource sees only the value InputPath selects; its sum is written at `sum`. */
  lemma ExecuteAdd(doc: Json, selected: Path, next: Option<string>, isEnd: bool)
    requires Read(doc, selected) == Some(Numbers())
    requires isEnd || next.Some?
    ensures Execute(StateSpec(Task, Some(AddId), At(selected), None, Some(["sum"]), next, isEnd), Resources(), doc)
         == Ok(RunStateResult(Write(doc, ["sum"], JInt(7)), "Task", if isEnd then None else next, isEnd))
  {
    var spec := StateSpec(Task, Some(AddId), At(selected), None, Some(["sum"]), next, isEnd);
    AddRegistered();
    assert AddNumbers(Numbers()) == JInt(7);
    assert Output(spec, Resources(), doc) == Ok(JInt(7));
  }

  /** `runState` of an Add Task found under `name`. */
  lemma RunStateAdd(
    definition: Json, name: string, state: Json, doc: Json, selected: Path, next: Option<string>, isEnd: bool)
    requires LookupState(definition, name) == Ok(state)
    requires DecodeState(state) == Ok(StateSpec(Task, Some(AddId), At(selected), None, Some(["sum"]), next, isEnd))
    requires Read(doc, selected) == Some(Numbers())
    requires isEnd || next.Some?
    ensures RunState(definition, Resources(), name, doc)
         == Ok(RunStateResult(Write(doc, ["sum"], JInt(7)), "Task", if isEnd then None else next, isEnd))
  {
    RunStateOfSpec(definition, Resources(), name, doc, state,
                   StateSpec(Task, Some(AddId), At(selected), None, Some(["sum"]), next, isEnd));
    ExecuteAdd(doc, selected, next, isEnd);
  }

  lemma AddSum(doc: Json, expected: Json)
    requires doc.JObject? && expected == JObject(doc.fields["sum" := JInt(7)])
    ensures Write(doc, ["sum"], JInt(7)) == expected
  {
  }

  lemma RunStateAddEnd(name: string)
    ensures RunState(SingleState(name, name, AddState("End", JBool(true))), Resources(), name, AddInput())
         == Ok(RunStateResult(AddOutput(), "Task", None, true))
  {
    var state := AddState("End", JBool(true));
    var def := SingleState(name, name, state);
    AddStateMembers("End", JBool(true));
    DecodeAddState(state, None, true);
    LookupSingle(name, name, state);
    assert Read(AddInput(), ["numbers"]) == Some(Numbers());
    RunStateAdd(def, name, state, AddInput(), ["numbers"], None, true);
    assert AddInput().fields["sum" := JInt(7)] == AddOutput().fields;
    AddSum(AddInput(), AddOutput());
  }

  /** `run` of the one-Task machine: the final result is the Task's, terminal, naming no successor. */
  lemma RunAddTask(name: string, fuel: nat)
    requires fuel >= 1
    ensures Run(SingleState(name, name, AddState("End", JBool(true))), Resources(), AddInput(), fuel)
         == Ok(RunStateResult(AddOutput(), "Task", None, true))
  {
    RunStateAddEnd(name);
    RunStopsAtTerminalStart(SingleState(name, name, AddState("End", JBool(true))), Resources(), name, AddInput(), fuel,
                            RunStateResult(AddOutput(), "Task", None, true));
  }

  // ----- the usage example: the same machine, with a `Comment`, started at `AddNumbers` -----

  function ReadmeDefinition(): Json {
    JObject(map[
      "Comment" := JString("https://states-language.net/spec.html#data"),
      "StartAt" := JString("AddNumbers"),
      "States" := JObject(map["AddNumbers" := AddState("End", JBool(true))])])
  }

  /** The usage example's run: its `data` keeps `title` and `numbers` and gains `sum: 7`. */
  lemma ReadmeRun(fuel: nat)
    requires fuel >= 1
    ensures Run(ReadmeDefinition(), Resources(), AddInput(), fuel).Ok?
    ensures Run(ReadmeDefinition(), Resources(), AddInput(), fuel).value.data == AddOutput()
  {
    var plain := SingleState("AddNumbers", "AddNumbers", AddState("End", JBool(true)));
    assert ReadmeDefinition()
        == JObject(plain.fields["Comment" := JString("https://states-language.net/spec.html#data")]);
    RunIgnoresOtherFields(plain.fields, "Comment", JString("https://states-language.net/spec.html#data"),
                          Resources(), AddInput(), fuel);
    RunAddTask("AddNumbers", fuel);
  }

  // ----- `run` refusals -----

  /** Without `StartAt` nothing runs, whatever the input. */
  lemma RunWithoutStartAt(input: Json, fuel: nat)
    ensures Run(JObject(map["States" := JObject(map["Done" := JObject(map["Type" := JString("Succeed")])])]),
                map[], input, fuel)
         == Err("StartAt does not exist")
  {
  }

  function UnknownState(): Json {
    JObject(map["Type" := JString("UnknownType")])
  }

  /** A state of unknown type aborts the run with a message naming that type. */
  lemma RunInvalidType(fuel: nat)
    requires fuel >= 1
    ensures Run(SingleState("Done", "Done", UnknownState()), map[], EmptyObject, fuel)
         == Err("Invalid Type: UnknownType")
  {
    var def := SingleState("Done", "Done", UnknownState());
    LookupSingle("Done", "Done", UnknownState());
    assert TypeName(UnknownState()) == "UnknownType";
    assert RunState(def, map[], "Done", EmptyObject) == Err("Invalid Type: UnknownType");
    RunPropagatesStartError(def, map[], "Done", EmptyObject, fuel);
  }

  // ----- Pass states with a literal `Input` of "a" and ResultPath `$.a2` -----

  function PassLiteral(ending: map<string, Json>): Json {
    JObject(map["Input" := JString("a"), "ResultPath" := JString("$.a2"), "Type" := JString("Pass")] + ending)
  }

  function A1(): Json {
    JObject(map["a1" := JInt(123)])
  }

  function PassSpec(inputPath: InputPath, input: Option<Json>, resultPath: Path, next: Option<string>, isEnd: bool)
    : StateSpec
  {
    StateSpec(Pass, None, inputPath, input, Some(resultPath), next, isEnd)
  }

  lemma PassLiteralMembers(ending: map<string, Json>, next: Option<string>, isEnd: bool)
    requires ending == map["End" := JBool(true)] || ending == map["Next" := JString("NextState")] || ending == map[]
    requires next == (if "Next" in ending then Some("NextState") else None)
    requires isEnd == ("End" in ending)
    ensures DecodeState(PassLiteral(ending)) == Ok(PassSpec(Absent, Some(JString("a")), ["a2"], next, isEnd))
  {
    var state := PassLiteral(ending);
    RenderOne("a2");
    assert "$." + "a2" == "$.a2";
    assert Member(state, "Type") == Some(JString(KindName(Pass)));
    assert Member(state, "Resource") == None;
    assert Member(state, "InputPath") == None;
    assert Member(state, "Input") == Some(JString("a"));
    assert Member(state, "ResultPath") == ResultPathField(Some(["a2"]));
    assert Member(state, "Next") == OptionalText(next);
    assert isEnd <==> Member(state, "End") == Some(JBool(true));
    DecodeFromMembers(state, PassSpec(Absent, Some(JString("a")), ["a2"], next, isEnd));
  }

  function A1A2(): Json {
    JObject(map["a1" := JInt(123), "a2" := JString("a")])
  }

  lemma ExecutePassLiteral(next: Option<string>, isEnd: bool)
    ensures Execute(PassSpec(Absent, Some(JString("a")), ["a2"], next, isEnd), map[], A1())
         == MakeResult(A1A2(), "Pass", if isEnd then None else next, isEnd)
  {
    assert A1().fields["a2" := JString("a")] == A1A2().fields;
    assert MergeResult(A1(), ["a2"], JString("a")) == A1A2();
  }

  /** `runState` of the named state, although `StartAt` names no state at all. */
  lemma RunStatePassLiteral(ending: map<string, Json>, next: Option<string>, isEnd: bool)
    requires ending == map["End" := JBool(true)] || ending == map["Next" := JString("NextState")] || ending == map[]
    requires next == (if "Next" in ending then Some("NextState") else None)
    requires isEnd == ("End" in ending)
    ensures RunState(SingleState("Start", "Target", PassLiteral(ending)), map[], "Target", A1())
         == MakeResult(A1A2(), "Pass", if isEnd then None else next, isEnd)
  {
    var state := PassLiteral(ending);
    PassLiteralMembers(ending, next, isEnd);
    LookupSingle("Start", "Target", state);
    RunStateOfSpec(SingleState("Start", "Target", state), map[], "Target", A1(), state,
                   PassSpec(Absent, Some(JString("a")), ["a2"], next, isEnd));
    ExecutePassLiteral(next, isEnd);
  }

  /** `End: true` makes the state terminal. */
  lemma RunStateEndIsTerminal()
    ensures RunState(SingleState("Start", "Target", PassLiteral(map["End" := JBool(true)])), map[], "Target", A1()).Ok?
    ensures RunState(SingleState("Start", "Target", PassLiteral(map["End" := JBool(true)])), map[], "Target", A1())
              .value.isTerminalState
  {
    RunStatePassLiteral(map["End" := JBool(true)], None, true);
  }

  /** `Next` is reported as the successor; the literal `Input` lands at `$.a2` beside `a1`. */
  lemma RunStateNextAndInput()
    ensures RunState(SingleState("Start", "Target", PassLiteral(map["Next" := JString("NextState")])), map[], "Target", A1())
         == Ok(RunStateResult(A1A2(), "Pass", Some("NextState"), false))
  {
    RunStatePassLiteral(map["Next" := JString("NextState")], Some("NextState"), false);
  }

  /** Neither `Next` nor `End: true`: the state is refused. */
  lemma RunStateNeitherNextNorEnd()
    ensures RunState(SingleState("Start", "Target", PassLiteral(map[])), map[], "Target", A1())
         == Err("nextState must be non-null when the state is non-terminal state")
  {
    RunStatePassLiteral(map[], None, false);
  }

  // ----- Succeed and Fail -----

  function Sum7(): Json {
    JObject(map["sum" := JInt(7)])
  }

  /** Succeed and Fail hand the document on unchanged and end the run. */
  lemma RunStateSucceedOrFail(kind: Kind)
    requires kind.Succeed? || kind.Fail?
    ensures RunState(SingleState("Start", "Target", JObject(map["Type" := JString(KindName(kind))])), map[], "Target", Sum7())
         == Ok(RunStateResult(Sum7(), KindName(kind), None, true))
  {
    var state := JObject(map["Type" := JString(KindName(kind))]);
    var spec := StateSpec(kind, None, Absent, None, None, None, false);
    DecodeFromMembers(state, spec);
    LookupSingle("Start", "Target", state);
    RunStateOfSpec(SingleState("Start", "Target", state), map[], "Target", Sum7(), state, spec);
  }

  // ----- Pass states choosing their value by InputPath -----

  function PassSelecting(inputPath: Json, resultPath: string): Json {
    JObject(map[
      "InputPath" := inputPath,
      "ResultPath" := JString(resultPath),
      "Type" := JString("Pass"),
      "Next" := JString("NextState")])
  }

  lemma PassSelectingMembers(inputPath: Json, resultText: string, selected: InputPath, resultPath: Path)
    requires InputPathField(selected) == Some(inputPath) && WellFormed(PassSpec(selected, None, resultPath, None, false))
    requires Render(resultPath) == resultText
    ensures DecodeState(PassSelecting(inputPath, resultText))
         == Ok(PassSpec(selected, None, resultPath, Some("NextState"), false))
  {
    var state := PassSelecting(inputPath, resultText);
    assert Member(state, "Type") == Some(JString(KindName(Pass)));
    assert Member(state, "Resource") == None;
    assert Member(state, "Input") == None;
    assert Member(state, "End") == None;
    DecodeFromMembers(state, PassSpec(selected, None, resultPath, Some("NextState"), false));
  }

  /** Running the only state of a one-state definition executes its decoded declaration. */
  lemma RunStateSingle(state: Json, spec: StateSpec, resources: Registry, doc: Json)
    requires DecodeState(state) == Ok(spec)
    ensures RunState(SingleState("Start", "Target", state), resources, "Target", doc) == Execute(spec, resources, doc)
  {
    LookupSingle("Start", "Target", state);
    RunStateOfSpec(SingleState("Start", "Target", state), resources, "Target", doc, state, spec);
  }

  /** InputPath `null` stores `{}`. */
  lemma RunStatePassNullInputPath()
    ensures RunState(SingleState("Start", "Target", PassSelecting(JNull, "$.a2")), map[], "Target", A1())
         == Ok(RunStateResult(JObject(map["a1" := JInt(123), "a2" := EmptyObject]), "Pass", Some("NextState"), false))
  {
    var spec := PassSpec(Null, None, ["a2"], Some("NextState"), false);
    RenderOne("a2");
    assert "$." + "a2" == "$.a2";
    PassSelectingMembers(JNull, "$.a2", Null, ["a2"]);
    RunStateSingle(PassSelecting(JNull, "$.a2"), spec, map[], A1());
    ExecutePassNull();
  }

  lemma ExecutePassNull()
    ensures Execute(PassSpec(Null, None, ["a2"], Some("NextState"), false), map[], A1())
         == Ok(RunStateResult(JObject(map["a1" := JInt(123), "a2" := EmptyObject]), "Pass", Some("NextState"), false))
  {
    var expected := JObject(map["a1" := JInt(123), "a2" := EmptyObject]);
    assert A1().fields["a2" := EmptyObject] == expected.fields;
    assert MergeResult(A1(), ["a2"], EmptyObject) == expected;
  }

  /** InputPath `$.a1` stores the value of `a1`. */
  lemma RunStatePassPathInputPath()
    ensures RunState(SingleState("Start", "Target", PassSelecting(JString("$.a1"), "$.a2")), map[], "Target", A1())
         == Ok(RunStateResult(JObject(map["a1" := JInt(123), "a2" := JInt(123)]), "Pass", Some("NextState"), false))
  {
    var spec := PassSpec(At(["a1"]), None, ["a2"], Some("NextState"), false);
    PathInputPathDecodes();
    RunStateSingle(PassSelecting(JString("$.a1"), "$.a2"), spec, map[], A1());
    ExecutePassPath();
  }

  lemma PathInputPathDecodes()
    ensures DecodeState(PassSelecting(JString("$.a1"), "$.a2"))
         == Ok(PassSpec(At(["a1"]), None, ["a2"], Some("NextState"), false))
  {
    RenderOne("a1");
    RenderOne("a2");
    assert "$." + "a1" == "$.a1";
    assert "$." + "a2" == "$.a2";
    PassSelectingMembers(JString("$.a1"), "$.a2", At(["a1"]), ["a2"]);
  }

  lemma ExecutePassPath()
    ensures Execute(PassSpec(At(["a1"]), None, ["a2"], Some("NextState"), false), map[], A1())
         == Ok(RunStateResult(JObject(map["a1" := JInt(123), "a2" := JInt(123)]), "Pass", Some("NextState"), false))
  {
    var expected := JObject(map["a1" := JInt(123), "a2" := JInt(123)]);
    assert SelectInput(A1(), At(["a1"])) == Some(JInt(123));
    assert A1().fields["a2" := JInt(123)] == expected.fields;
    assert MergeResult(A1(), ["a2"], JInt(123)) == expected;
  }

  // ----- deep paths -----

  function DeepB3(): Json {
    JObject(map["c1" := JString("a-b3-c1")])
  }

  function DeepA(b3: Json): Json {
    JObject(map["b1" := JString("a-b1"), "b2" := JObject(map["c1" := JString("a-b2-c1")]), "b3" := b3])
  }

  function DeepBefore(): Json {
    JObject(map["a" := DeepA(DeepB3())])
  }

  function DeepAfter(): Json {
    JObject(map["a" := DeepA(JObject(map["c1" := JString("a-b3-c1"), "c2" := JString("a-b2-c1")]))])
  }

  /** `$.a.b2.c1` reads the nested value and writing it at `$.a.b3.c2` adds `c2`
      under `a.b3`, leaving `a.b1`, `a.b2` and `a.b3.c1` as they were. */
  lemma RunStatePassDeepPaths()
    ensures RunState(SingleState("Start", "Target", PassSelecting(JString("$.a.b2.c1"), "$.a.b3.c2")), map[], "Target", DeepBefore())
         == Ok(RunStateResult(DeepAfter(), "Pass", Some("NextState"), false))
  {
    var spec := PassSpec(At(["a", "b2", "c1"]), None, ["a", "b3", "c2"], Some("NextState"), false);
    DeepPathsDecode();
    RunStateSingle(PassSelecting(JString("$.a.b2.c1"), "$.a.b3.c2"), spec, map[], DeepBefore());
    ExecuteDeep();
  }

  lemma DeepPathsDecode()
    ensures DecodeState(PassSelecting(JString("$.a.b2.c1"), "$.a.b3.c2"))
         == Ok(PassSpec(At(["a", "b2", "c1"]), None, ["a", "b3", "c2"], Some("NextState"), false))
  {
    RenderThree("a", "b2", "c1");
    RenderThree("a", "b3", "c2");
    assert "$." + "a" + "." + "b2" + "." + "c1" == "$.a.b2.c1";
    assert "$." + "a" + "." + "b3" + "." + "c2" == "$.a.b3.c2";
    PassSelectingMembers(JString("$.a.b2.c1"), "$.a.b3.c2", At(["a", "b2", "c1"]), ["a", "b3", "c2"]);
  }

  lemma ExecuteDeep()
    ensures Execute(PassSpec(At(["a", "b2", "c1"]), None, ["a", "b3", "c2"], Some("NextState"), false), map[], DeepBefore())
         == Ok(RunStateResult(DeepAfter(), "Pass", Some("NextState"), false))
  {
    DeepWrite();
  }

  lemma DeepWrite()
    ensures SelectInput(DeepBefore(), At(["a", "b2", "c1"])) == Some(JString("a-b2-c1"))
    ensures MergeResult(DeepBefore(), ["a", "b3", "c2"], JString("a-b2-c1")) == DeepAfter()
  {
    var v := JString("a-b2-c1");
    var c := JObject(map["c1" := JString("a-b3-c1"), "c2" := v]);
    assert Write(DeepB3(), ["c2"], v) == c by {
      assert DeepB3().fields["c2" := v] == c.fields;
    }
    assert Write(DeepA(DeepB3()), ["b3", "c2"], v) == DeepA(c) by {
      assert ["b3", "c2"][1..] == ["c2"];
      assert DeepA(DeepB3()).fields["b3" := c] == DeepA(c).fields;
    }
    assert Write(DeepBefore(), ["a", "b3", "c2"], v) == DeepAfter() by {
      assert ["a", "b3", "c2"][1..] == ["b3", "c2"];
      assert DeepBefore().fields["a" := DeepA(c)] == DeepAfter().fields;
    }
    assert Read(DeepBefore(), ["a", "b2", "c1"]) == Some(v) by {
      assert ["a", "b2", "c1"][1..] == ["b2", "c1"];
      assert ["b2", "c1"][1..] == ["c1"];
    }
  }

  // ----- Task states with a successor -----

  function TaskSelecting(inputPath: string): Json {
    JObject(map[
      "InputPath" := JString(inputPath),
      "Resource" := JString(AddId),
      "ResultPath" := JString("$.sum"),
      "Type" := JString("Task"),
      "Next" := JString("NextState")])
  }

  lemma TaskSelectingDecodes(text: string, selected: Path)
    requires Segments(selected) && Render(selected) == text
    ensures DecodeState(TaskSelecting(text))
         == Ok(StateSpec(Task, Some(AddId), At(selected), None, Some(["sum"]), Some("NextState"), false))
  {
    var state := TaskSelecting(text);
    RenderOne("sum");
    assert "$." + "sum" == "$.sum";
    assert Member(state, "Type") == Some(JString(KindName(Task)));
    assert Member(state, "Input") == None;
    assert Member(state, "End") == None;
    DecodeFromMembers(state, StateSpec(Task, Some(AddId), At(selected), None, Some(["sum"]), Some("NextState"), false));
  }

  function NumbersDoc(): Json {
    JObject(map["numbers" := Numbers()])
  }

  lemma TaskNumbersDecodes()
    ensures DecodeState(TaskSelecting("$.numbers"))
         == Ok(StateSpec(Task, Some(AddId), At(["numbers"]), None, Some(["sum"]), Some("NextState"), false))
  {
    RenderOne("numbers");
    assert "$." + "numbers" == "$.numbers";
    TaskSelectingDecodes("$.numbers", ["numbers"]);
  }

  lemma NumbersDocSum()
    ensures Read(NumbersDoc(), ["numbers"]) == Some(Numbers())
    ensures Write(NumbersDoc(), ["sum"], JInt(7)) == JObject(map["numbers" := Numbers(), "sum" := JInt(7)])
  {
    var expected := JObject(map["numbers" := Numbers(), "sum" := JInt(7)]);
    assert NumbersDoc().fields["sum" := JInt(7)] == expected.fields;
    AddSum(NumbersDoc(), expected);
  }

  /** The resource is handed only `numbers`; the sum lands at `sum`. */
  lemma RunStateTaskNumbers()
    ensures RunState(SingleState("Start", "Target", TaskSelecting("$.numbers")), Resources(), "Target", NumbersDoc())
         == Ok(RunStateResult(JObject(map["numbers" := Numbers(), "sum" := JInt(7)]), "Task", Some("NextState"), false))
  {
    var state := TaskSelecting("$.numbers");
    TaskNumbersDecodes();
    LookupSingle("Start", "Target", state);
    NumbersDocSum();
    RunStateAdd(SingleState("Start", "Target", state), "Target", state, NumbersDoc(), ["numbers"], Some("NextState"), false);
  }

  function DeepNumbers(): Json {
    JObject(map["a" := JObject(map["b3" := JObject(map["c2" := Numbers()])])])
  }

  lemma TaskDeepDecodes()
    ensures DecodeState(TaskSelecting("$.a.b3.c2"))
         == Ok(StateSpec(Task, Some(AddId), At(["a", "b3", "c2"]), None, Some(["sum"]), Some("NextState"), false))
  {
    RenderThree("a", "b3", "c2");
    assert "$." + "a" + "." + "b3" + "." + "c2" == "$.a.b3.c2";
    TaskSelectingDecodes("$.a.b3.c2", ["a", "b3", "c2"]);
  }

  lemma DeepNumbersRead()
    ensures Read(DeepNumbers(), ["a", "b3", "c2"]) == Some(Numbers())
  {
    assert ["a", "b3", "c2"][1..] == ["b3", "c2"];
    assert ["b3", "c2"][1..] == ["c2"];
  }

  /** The resource is handed the subtree at `$.a.b3.c2`; the sum lands at the root's `sum`. */
  lemma RunStateTaskDeepInput()
    ensures RunState(SingleState("Start", "Target", TaskSelecting("$.a.b3.c2")), Resources(), "Target", DeepNumbers())
         == Ok(RunStateResult(JObject(DeepNumbers().fields["sum" := JInt(7)]), "Task", Some("NextState"), false))
  {
    var state := TaskSelecting("$.a.b3.c2");
    TaskDeepDecodes();
    LookupSingle("Start", "Target", state);
    DeepNumbersRead();
    RunStateAdd(SingleState("Start", "Target", state), "Target", state, DeepNumbers(), ["a", "b3", "c2"],
                Some("NextState"), false);
    AddSum(DeepNumbers(), JObject(DeepNumbers().fields["sum" := JInt(7)]));
  }

  // ----- RunStateResult construction -----

  /** A successor makes a non-terminal result acceptable, and the accepted result is
      the record of its four arguments, so two constructions from equal arguments
      are deeply equal. */
  lemma ResultsCompareEqual()
    ensures MakeResult(EmptyObject, "Task", Some("NextState"), false)
         == Ok(RunStateResult(EmptyObject, "Task", Some("NextState"), false))
  {
  }

  /** A non-terminal result without a successor is refused, with this message. */
  lemma ResultWithoutSuccessorRefused()
    ensures MakeResult(EmptyObject, "Task", None, false)
         == Err("nextState must be non-null when the state is non-terminal state")
  {
  }
}
