# FakeStepFunctions interpreter, modelled in Dafny

FakeStepFunctions runs a workflow written in the Amazon States Language on the
local machine. Resources that would normally be remote functions are
in-memory stand-ins supplied by the caller. This project models the
interpreter's core in Dafny and proves properties of the model:

- **Documents and reference paths** (`json.dfy`, `paths.dfy`, `path_resolver.dfy`).
  A JSON document is `Json`: null, booleans, integers, strings and objects. A
  reference path such as `$.a.b.c` parses into its member names. `Read` returns
  the value at a path, or nothing. `Write` returns a copy of the document with a
  value stored at the path. It creates any missing objects on the way and
  leaves every other branch as it was.
- **Input and output processing** (`result_composer.dfy`). InputPath has three
  forms: absent (the whole document), `null` (`{}`), or a path (the value
  there). ResultPath says where a state's result is stored.
- **RunStateResult** (`run_state_result.dfy`). This is the immutable record of
  one state execution: `data`, `stateType`, `nextStateName` and
  `isTerminalState`. Its checking constructor refuses a non-terminal result that
  names no successor. Equality is structural.
- **State declarations** (`definition.dfy`). A state's JSON declaration decodes
  to a typed `StateSpec`. `Type` is checked before anything else, so an unknown
  type is reported as `Invalid Type: <type>`.
- **The interpreter** (`state_machine.dfy`). `RunState` executes one named
  state:
  - Task: select the input, call the resource, store the result at ResultPath.
  - Pass: use the literal `Input` if present, otherwise the selected input, and
    store it at ResultPath.
  - Succeed and Fail: pass the document on unchanged and end the run.

  After the per-type work, `End: true` ends the run. Otherwise `Next` must name
  the successor. `Run` checks `StartAt` and then repeats `RunState` until a
  terminal result. `RunMachine` is the same control loop written as a `while`
  loop and is proved equal to `Run`.
- **Scenarios** (`scenarios.dfy`). The documented behaviours are stated as
  lemmas on the exact definitions and documents involved.

The repository's implementation files (`FakeStateMachine.js` and
`RunStateResult.js` at the repository root, `src/FakeStateMachine.ts`) are not
part of this model. The behaviour modelled is what the test suites in `test/`
assert: every assertion there is a lemma here. The model uses the definition's
own keys `StartAt`, `End` and `Resource`.

Resources are modelled as a `Registry`, a map from resource id to a total
function `Json -> Json`. Their asynchronous calls are modelled as plain calls.

## Model

| member | source | states |
|---|---|---|
| Paths.ParseRender | test/FakeStateMachine.js:259-289 | a dotted reference path like `$.a.b2.c1` is read back as exactly its member names |
| Paths.RenderParse | test/FakeStateMachine.js:259-289 | every accepted path text is the `$`-rooted, `.`-joined form of the names it parses to |
| PathResolver.ReadAfterWrite | test/FakeStateMachine.js:259-289 | after storing a value at a path, reading that path gives the value |
| PathResolver.ReadBesideWrite | test/FakeStateMachine.js:274-287 | a write at a path leaves every sibling branch unchanged: writing `$.a.b3.c2` keeps `a.b1`, `a.b2`, `a.b3.c1` |
| PathResolver.ReadBelowWrite | test/FakeStateMachine.js:322-353 | below the written path the document reads like the stored value |
| PathResolver.WriteWhatIsRead | test/FakeStateMachine.js:234-257 | storing back the value just read at a path leaves the document as it was |
| PathResolver.WriteTwice | test/FakeStateMachine.js:181-205 | a second store at the same path fully replaces the first |
| PathResolver.WriteKeepsMembers | test/readme.example.ts:26-35 | a store at `$.sum` adds `sum` and keeps every other top-level member (`title`, `numbers`) as it was |
| ResultComposer.SelectInput | test/FakeStateMachine.js:206-257 | the three-way InputPath rule: absent gives the whole document, `null` gives `{}`, a path gives the value found there (a value whose write-back is the identity), or nothing when the path addresses nothing |
| ResultComposer.RootPathSelectsWhole | test/FakeStateMachine.js:207-209 | the path `$` selects what an absent InputPath selects: the whole data |
| ResultComposer.MergeResult | test/FakeStateMachine.js:181-205 | the merged document holds the result at ResultPath, reads like the result below it, and is unchanged beside it |
| RunStateResults.MakeResult | test/RunStateResult.js:15-21 | construction succeeds exactly when the result is terminal or names a successor; otherwise it fails with "nextState must be non-null when the state is non-terminal state"; a built result carries its four arguments |
| RunStateResults.MakeResultStructural | test/RunStateResult.js:9-13 | two accepted results are equal exactly when they were built from equal arguments |
| Definitions.ClassifyKindName | test/FakeStateMachine.js:54-69 | a type string is recognised as a kind exactly when it is that kind's own name |
| Definitions.ClassifyKeepsName | test/FakeStateMachine.js:54-69 | an unrecognised type is reported with its own text |
| Definitions.DecodeInputPath | test/FakeStateMachine.js:206-257 | no InputPath field decodes to Absent, `null` to Null, and the text of any path to exactly that path; a string that is not a `$`-rooted path fails with `Invalid path: <text>` and any other value with `Invalid InputPath`; whatever decodes is what the field declares |
| Definitions.DecodeResultPath | test/FakeStateMachine.js:181-205 | no ResultPath field decodes to none and the text of any path to exactly that path; a string that is not a `$`-rooted path fails with `Invalid path: <text>` and any other value with `Invalid ResultPath`; whatever decodes is what the field declares |
| Definitions.DecodeState | test/FakeStateMachine.js:54-69 | an unknown `Type` fails with `Invalid Type: <type>` before any other field is examined; with a known type a non-string `Resource` fails with `Invalid Resource`; a decoded state has the declared kind and holds exactly the declared `Resource`, InputPath, `Input`, ResultPath and `Next`, with well-formed paths, and `End` counts only when it is `true` |
| Definitions.DecodeFromMembers | test/FakeStateMachine.js:80-141 | a state whose fields declare a specification decodes to exactly that specification |
| Definitions.DecodeEncode | test/FakeStateMachine.js:80-141 | decoding recovers every well-formed state declaration written out as JSON |
| StateMachine.Selected | test/FakeStateMachine.js:206-257 | a state's input is the whole document without InputPath and `{}` for `null`; for a path it exists exactly when the path reads a value in the document, and is that value; otherwise the state fails with "InputPath matches nothing: <path>" |
| StateMachine.Output | test/FakeStateMachine.js:181-257 | a Task yields its resource applied to the selected input, and succeeds exactly when the input is selectable and the resource is registered; a Pass yields its literal `Input`, or else the selected input |
| StateMachine.Execute | test/FakeStateMachine.js:80-176 | results are valid and name their kind; terminal exactly for Succeed, Fail or `End: true`, with no successor; otherwise the successor is `Next`; no `Next` and no `End` means failure; Succeed and Fail keep the document; Task and Pass succeed exactly when output, ResultPath and an ending exist, store the output at ResultPath and change nothing beside it |
| StateMachine.RunState | test/FakeStateMachine.js:54-69 | every result keeps the RunStateResult invariant, a terminal one names no successor, and an unknown type fails with `Invalid Type: <type>` |
| StateMachine.RunStateTransitions | test/FakeStateMachine.js:80-176 | the result names the declared `Type`; `End: true` is terminal with no successor; a non-terminal result's successor is the declared `Next`; a Task or Pass with neither fails; Succeed and Fail return the document unchanged and terminal |
| StateMachine.Loop | test/readme.example.ts:25-29 | the control loop only ever returns a terminal result |
| StateMachine.Run | test/FakeStateMachine.js:11-23 | without a string `StartAt` the run fails with "StartAt does not exist" whatever the input; any result returned is terminal |
| StateMachine.RunMachine | test/readme.example.ts:25-29 | the loop that walks from `StartAt` through successive states computes exactly `Run` |
| StateMachine.StepMachine | test/readme.example.ts:25-29 | stepping while the budget lasts, stopping at a terminal result, an error or a missing successor, agrees with `Loop` for any step function |
| StateMachine.RunEndsWithoutSuccessor | test/FakeStateMachine.js:44-51 | a finished run ends on a terminal result with a null successor |
| StateMachine.RunStopsAtTerminalStart | test/FakeStateMachine.js:26-52 | when the start state ends the run, the run returns that state's result |
| StateMachine.RunPropagatesStartError | test/FakeStateMachine.js:54-69 | an error of the start state aborts the run with the same message |
| StateMachine.RunStateOfSpec | test/FakeStateMachine.js:80-122 | `runState` on a state found and decoded is the execution of its declaration |
| StateMachine.RunStateReadsOnlyStates | test/FakeStateMachine.js:80-122 | `runState` depends only on `States`, so it runs the named state whatever `StartAt` says |
| StateMachine.LoopSameSteps | test/readme.example.ts:4-8 | two step functions that agree everywhere drive identical runs |
| StateMachine.RunIgnoresOtherFields | test/readme.example.ts:4-8 | a definition field other than `StartAt` and `States`, such as `Comment`, does not affect a run |
| StateMachine.LoopMoreFuel | test/FakeStateMachine.js:70-76 | a larger step budget never changes a run that already finished |
| StateMachine.LoopEndsWithoutSuccessor | test/FakeStateMachine.js:44-51 | if every terminal step names no successor, neither does the loop's result |
| Scenarios.RunWithoutStartAt | test/FakeStateMachine.js:11-23 | the definition with only `States` fails with "StartAt does not exist" for every input |
| Scenarios.RunAddTask | test/FakeStateMachine.js:26-52 | the one-Task Add machine returns `({title, numbers, sum: 7}, 'Task', null, true)` |
| Scenarios.ReadmeRun | test/readme.example.ts:4-35 | with a `Comment` and start `AddNumbers`, the final `data` is `{title, numbers, sum: 7}` |
| Scenarios.RunInvalidType | test/FakeStateMachine.js:54-69 | the run fails with "Invalid Type: UnknownType" |
| Scenarios.RunStateEndIsTerminal | test/FakeStateMachine.js:80-100 | `End: true` gives a terminal result, although `StartAt` names no state |
| Scenarios.RunStateNextAndInput | test/FakeStateMachine.js:181-205 | the literal `Input` "a" lands at `$.a2` beside `a1`, with successor `NextState` and not terminal |
| Scenarios.RunStateNeitherNextNorEnd | test/FakeStateMachine.js:124-141 | the state fails with "nextState must be non-null when the state is non-terminal state" |
| Scenarios.RunStateSucceedOrFail | test/FakeStateMachine.js:143-176 | Succeed and Fail return `({sum: 7}, <type>, null, true)` |
| Scenarios.RunStatePassNullInputPath | test/FakeStateMachine.js:210-233 | InputPath `null` stores `{}` at `$.a2` |
| Scenarios.RunStatePassPathInputPath | test/FakeStateMachine.js:234-257 | InputPath `$.a1` stores 123 at `$.a2` |
| Scenarios.RunStatePassDeepPaths | test/FakeStateMachine.js:259-289 | `$.a.b2.c1` is read and stored at `$.a.b3.c2`, all else unchanged |
| Scenarios.DeepWrite | test/FakeStateMachine.js:274-287 | the nested read and the nested write of the deep-path document |
| Scenarios.RunStateTaskNumbers | test/FakeStateMachine.js:297-321 | the Add resource receives `numbers`; the result is `({numbers, sum: 7}, 'Task', 'NextState', false)` |
| Scenarios.RunStateTaskDeepInput | test/FakeStateMachine.js:322-353 | the Add resource receives the subtree at `$.a.b3.c2`; `sum: 7` is stored at the root |
| Scenarios.ExecuteAdd | test/FakeStateMachine.js:293-296 | the Add stand-in receives only the selected value and its sum is stored at `sum` |
| Scenarios.ResultsCompareEqual | test/RunStateResult.js:9-13 | `({}, 'Task', 'NextState', false)` is accepted as exactly the record of those four values, so two such constructions are deeply equal |
| Scenarios.ResultWithoutSuccessorRefused | test/RunStateResult.js:15-21 | `({}, 'Task', null, false)` is refused with the exact message |

## Left out

- Choice, Parallel, Wait and Map states are not executed. Their types fail with `Unsupported Type: <type>` because no behaviour of theirs is pinned down.
- There is no cycle detection. `Run` is bounded by a `fuel` step budget and fails with its own message when the budget runs out. Loops and a task called twice have no asserted behaviour.
- Run: the contract holds only within the fuel budget. An unbounded run that never reaches a terminal state is not modelled.
- A Task with a literal `Input` ignores that field: only Pass uses `Input`, and the Task-with-Input case has no asserted behaviour.
- SelectInput: a path that addresses nothing yields no value, and the state then fails ("InputPath matches nothing"). JavaScript would pass `undefined` on, and `Json` has no `undefined`.
- A missing ResultPath on a Task or Pass state is an error ("ResultPath does not exist"). The language's `null` ResultPath (discard the result) is not modelled and is refused as malformed.
- An unregistered resource id fails with "Resource is not registered: <id>". A missing `Resource` fails with "Resource does not exist". An unknown state name fails with "State does not exist: <name>". A Resource, InputPath, ResultPath or Next field holding the wrong kind of value fails with "Invalid <field>". A path string not rooted at `$` fails with "Invalid path: <text>": only `$`-rooted paths are accepted. The tests pin none of these wordings.
- Write: a value on the path that is not an object is replaced by an object. JavaScript would silently drop the assignment or throw.
- Read only navigates object members. JavaScript properties of strings and numbers (such as `length`) are not modelled.
- JSON numbers are integers, and JSON arrays are not modelled. The tests use neither floating point nor arrays.
- Resource calls are synchronous total functions. Asynchronous completion and the resources' own code are not modelled, and resource ids are opaque keys.
- Exceptions are `Err` values carrying the message. The test runner is not modelled.
- `End: true` together with `Next` ends the run and drops the successor. No test declares both.
- A non-string `Type` is quoted in the error message as JavaScript's string conversion shows it (`undefined`, `null`, `true`, decimal digits, `[object Object]`). No test uses one.
- Succeed and Fail states still have their `Resource`, InputPath, ResultPath and `Next` fields checked, and can fail with "Invalid <field>". No test gives them such fields.
- `Loop` refuses a non-terminal step that names no successor, but `RunState` never produces one.
