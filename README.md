# runner — a Dafny model of the execution engine

This project models the core of bit-ranger/runner. Runner is a data-driven test and automation engine. A flow lists stages. Each stage holds an ordered list of steps, each step calls a pluggable action with templated configuration, and the whole stage is run once per row of a case dataset. Every step, point and case ends in a tri-state outcome: Ok, Fail (its assertion was false) or Err (an execution error). These outcomes are folded upward into stage and task states.

The repository holds several revisions of the engine side by side, and each is modelled against its own types:

- **The task runner** (`flow/src/flow/task/mod.rs`, modules `FlowTask`, `TaskSpec`, `TaskProps`, `TaskEnv`).
  - It is a class whose fields are the stage state, the task state, the case execution id and the step list.
  - Stages run in order. Each stage runs its rounds, and each round loads batches, optionally filters them row by row, runs them in concurrency-sized groups and reports them.
  - Every method is proved equal to a function of `TaskSpec`. The properties are proved about those functions in `TaskProps`: logs of loader and reporter calls, monotone Ok-to-Fail flags, round counts, and where the filtered load stops.
- **Step, point and case execution.**
  - `StepRun`: the timeout and unwind mapping of a step.
  - `PointRun`: the run-then-assert judgement of a point.
  - Two revisions of the sequential case loop: `CaseRun` with `CaseState`, and `LegacyCase` with the error codes 000/001/002.
  - The older task aggregation: `LegacyTask`.
- **The arguments handed to actions and points:** `CaseArg`, `StepArg`, `PointArg`. They cover identifiers and their display text, render contexts, the task-shared predicate, `render_value` and the assertion template.
- **Reporters and loaders.**
  - The engine's CSV reporter: `OutputCsv`.
  - The port revision's CSV reporter: `PortReport`.
  - The port revision's size-limited CSV loader: `PortLoad`.
  - The web revision's batch loop: `WebJob`.
- **Concrete steps and actions:** the Dubbo step (`DubboJava`), the redis step and point (`StepRedis`, `PointRedis`) and the sleep action (`SleepAction`).
- **Small pure pieces:** the command-line configuration (`CmdConf`) and the oldest revision's error type (`ModelError`).
- **Shared vocabulary:**
  - `Common`: Option, Result, and the code-plus-message error.
  - `JsonValue`: serde's `Value` with lookups that give `Null` for anything missing.
  - `Chord`: identities, step, case and task states, and the flow document.

External effects are collaborators with visible contracts:

- **Templates and serde.** The template engine, serde parsing and printing, time formatting and error display are function parameters.
- **The task runner's case loader and reporter.** These are modelled as values that hold the replies they will give, one per call, and a log of the calls made on them. A loader whose replies have run out gives no rows. A reporter whose replies have run out succeeds.
- **Redis.** The client library is a `Server` that answers open, connect and query.
- **The Dubbo gateway.** The child process and the HTTP call are an `invoke` function and a start outcome.

Three behaviours of the code are worth stating outright:

- `is_shared` (`flow/src/flow/step/arg.rs:97-108`) treats a step as task-shared when its config text has none of `{{data.`, `{{step.` and `{{curr.`.
- A stage `round` of 0 runs one round (`flow/src/flow/task/mod.rs:216-218`).
- An Err case in a batch marks the stage and the task Fail, like any other non-Ok case (`flow/src/flow/task/mod.rs:243-247`).

## Model

| member | source | states |
|---|---|---|
| Chord.StepState.IsOk | chord/src/step.rs:13-18 | holds exactly for `Ok` |
| Chord.StepState.IsErr | chord/src/step.rs:20-25 | holds exactly for `Err` |
| Chord.StepState.IsFail | chord/src/step.rs:27-32 | holds exactly for `Fail` |
| Chord.ExactlyOneStepPredicate | chord/src/step.rs:6-33 | every step state answers exactly one of `is_ok`, `is_err`, `is_fail` |
| Chord.CaseState.IsOk | chord/src/case.rs:37-43 | true for `Ok`, false for `Fail` and `Err` |
| Chord.Flow.StepOf | flow/src/flow/step/arg.rs:147-153 | a step's configuration is the flow's entry for the step name |
| StepRun.Run | flow/src/flow/step/mod.rs:18-57 | timeout gives Err "001" "timeout", a panic gives Err "002" "unwind", the action's Ok/Err value is carried over; the step is Ok exactly when the action returned Ok in time, never Fail; id and clock readings are the argument's |
| StepRun.RunErrIffNotOk | flow/src/flow/step/mod.rs:27-56 | the step is Err exactly when the action did not return Ok in time: the outcome set is {Ok, Err} |
| CaseArg.CaseIdTextInjective | flow/src/flow/case/arg.rs:49-53 | the "{task_id}-{exec_id}-{case}" text determines execution id and case name within a task (for dash-free execution ids) |
| CaseArg.NewCaseArg | flow/src/flow/case/arg.rs:63-84 | the identity is the task id, case name and execution id given; flow, actions, row data and pre-stage context are kept, so `id`, `step_vec` and `take_data` return them; the id displays as "{task_id}-{exec_id}-{case}" |
| CaseArg.CreateRenderContext | flow/src/flow/case/arg.rs:86-100 | "case" is the row, "step" is `{}`, "curr" is null; "def" is present iff the flow has def, "pre" iff there is a pre-stage context; no other key |
| StepArg.StepIdTextInjective | flow/src/flow/step/arg.rs:35-39 | within one case the "{case_id}-{step}" text determines the step |
| StepArg.NewCreateArg | flow/src/flow/step/arg.rs:51-77 | a create-time step id sits in case "create" of execution "create"; `id()` is the text "{task}-create-create-{step}" fixed at construction |
| StepArg.CreateConfig | flow/src/flow/step/arg.rs:89-91 | the configuration is the flow's entry for the step name |
| StepArg.IsShared | flow/src/flow/step/arg.rs:97-108 | false exactly when the text contains "{{data.", "{{step." or "{{curr." |
| StepArg.IsSharedParts | flow/src/flow/step/arg.rs:97-108 | a shared concatenation has shared halves |
| StepArg.PlainTextIsShared | flow/src/flow/step/arg.rs:97-108 | a text without "{{" is shared |
| StepArg.CaseReferenceNotShared | flow/src/flow/step/arg.rs:97-108 | any text holding a "{{data.", "{{step." or "{{curr." reference is not shared |
| StepArg.NewRunArg | flow/src/flow/step/arg.rs:120-141 | the step id is the step within the given case; `id()` is "{case_id}-{step}" fixed at construction |
| StepArg.RunArgLookups | flow/src/flow/step/arg.rs:147-164 | `config`, `assert` and `timeout` are the flow's entries for the step name |
| StepArg.RenderValue | flow/src/flow/step/arg.rs:166-175 | serialise, render, parse: an error at any stage is the result, otherwise the parsed rendering |
| StepArg.RenderValueFixpoint | flow/src/flow/step/arg.rs:170-175 | a value whose text renders to itself and parses back is returned unchanged |
| PointArg.RenderInner | flow/src/flow/point/arg.rs:75-82 | the rendering, or the engine's error under code "tpl" |
| PointArg.RenderedAt | flow/src/flow/point/arg.rs:59-72 | `Some` exactly when the folded path ends at a string that renders; then the rendering |
| PointArg.GetMetaStr | flow/src/flow/point/arg.rs:55-73 | the fold rooted at `point.<id>`: `Some` exactly when the target is a string that renders, and then its rendering |
| PointArg.GetConfig | flow/src/flow/point/arg.rs:150-153 | the value at `point.<id>.config` |
| PointArg.GetConfigRendered | flow/src/flow/point/arg.rs:129-148 | a rendered configuration string comes from a string at the folded path |
| PointArg.GetConfigRenderedIsMeta | flow/src/flow/point/arg.rs:129-148 | the config lookup is the meta lookup under "config": `None` when the target is not a string or rendering fails |
| PointArg.WithBinding | flow/src/flow/point/arg.rs:88-93 | the copied object context gains the one binding; a non-object context is left as it is |
| PointArg.RenderInnerWith | flow/src/flow/point/arg.rs:84-102 | renders against the copy with the extra binding; errors carry code "tpl" |
| PointArg.IfTemplate | flow/src/flow/point/arg.rs:108-111 | the template is "{{#if " + condition + "}}true{{else}}false{{/if}}" |
| PointArg.IfTemplateInjective | flow/src/flow/point/arg.rs:108-111 | different conditions give different templates |
| PointArg.Assert | flow/src/flow/point/arg.rs:104-121 | true exactly when the if-template, rendered with the value bound as "res", prints "true"; a render error gives false |
| PointArg.AssertBinding | flow/src/flow/point/arg.rs:84-113 | the engine sees the value under "res" and every other context entry unchanged |
| PointRun.PointAssert | flow/src/flow/point/mod.rs:42-50 | an absent (or unrenderable) assert condition counts as true; otherwise the condition's verdict on the value |
| PointRun.Run | flow/src/flow/point/mod.rs:16-40 | no type gives Err "001" "missing type"; runner Err(e) gives Err(e); runner Ok(json) gives Ok(json) when asserted true and Fail(json) otherwise |
| PointRun.RunWithoutTypeIgnoresRunner | flow/src/flow/point/mod.rs:19-22 | without a type the runner is not invoked: any two runners give the same assessment |
| PointRun.RunKeepsValue | flow/src/flow/point/mod.rs:27-35 | when the runner returns a value, the state is Ok or Fail carrying that same value |
| CaseRun.RenderContext.constructor | flow/src/flow/case/mod.rs:19 | the case's render context starts as the data of `create_render_context` |
| CaseRun.RegisterDyn | flow/src/flow/case/mod.rs:54-58 | the corrected registration (see Findings): the result sits at `dyn.<point id>`, a missing `dyn` entry is created, every other top-level entry and every other `dyn` entry is kept; non-object data is left alone |
| CaseRun.RegisterDynAsWritten | flow/src/flow/case/mod.rs:54-58 | as written: aborts exactly when the data is an object whose `dyn` entry is missing or neither null nor an object; otherwise gives the corrected registration's data, which keeps `dyn` usable |
| CaseRun.RegisterDynamic | flow/src/flow/case/mod.rs:54-58 | the context's new data is the corrected `RegisterDyn` of its old data |
| CaseRun.Points | flow/src/flow/case/mod.rs:21-50 | the corrected loop, shape of each outcome: Err is "000" "invalid point"; results are appended in point order before being judged; a PointError(e) outcome ends with the erring point's `Err(e)` last, a PointFailure outcome with an Ok result last, all earlier points passed; Ok has every point, all passed (the causes are `PointsByFirstStop`) |
| CaseRun.StopPoint | flow/src/flow/case/mod.rs:21-50 | the first point that does not pass (counted by `Passing`, along the contexts `ContextAt` registers into) is not created, does not run Ok, or fails its assertion in its context |
| CaseRun.SkipPassed | flow/src/flow/case/mod.rs:21-50 | the loop equals the loop restarted after any number of passing points, from the context they registered into, with their results appended |
| CaseRun.PointsByFirstStop | flow/src/flow/case/mod.rs:21-50 | the outcome is decided by the first point `n` that does not pass: Ok exactly when every point passes; Err "000" exactly when point `n` is unknown in its context; otherwise point `n`'s result is last, at position n, and a run `Err(e)` gives PointError(e) and a false assertion PointFailure |
| CaseRun.PassedPointIsRegistered | flow/src/flow/case/mod.rs:32-58 | in the corrected loop, a passing point's value is written to `dyn.<id>` before the next point is created |
| CaseRun.PointsAsWritten | flow/src/flow/case/mod.rs:21-58 | the loop as written, with an abort outcome; on a context whose `dyn` entry is usable it gives the corrected loop's outcome |
| CaseRun.AbortsAtFirstPass | flow/src/flow/case/mod.rs:21-58 | from a context without `dyn`, the loop as written aborts exactly when its first point is created, runs Ok and passes; otherwise it ends as the corrected loop |
| CaseRun.Run | flow/src/flow/case/mod.rs:17-51 | the loop's outcome is that of the corrected `Points` from the initial context, with the case id and clock readings |
| LegacyCase.Points | src/flow/case/mod.rs:21-57 | the corrected legacy loop, shape of each outcome: "000" names a point and has no results; "001" (the last result is Err) and "002" name the last point, with the results up to and including it and all earlier points passed; Ok has every point's result in point order (the causes are `PointsByFirstStop`) |
| LegacyCase.SkipPassed | src/flow/case/mod.rs:21-57 | the legacy loop equals the loop restarted after any number of passing points, from the context they registered into, with their results appended |
| LegacyCase.PointsByFirstStop | src/flow/case/mod.rs:21-57 | the outcome is decided by the first point `n` that does not pass: Ok exactly when every point passes; an unknown point `n` gives "000" "invalid point <id>" with no results; otherwise point `n`'s result is last, at position n, with "001" "run failure <id>" for a run error and "002" "assert failure <id>" for a false assertion |
| LegacyCase.PointsAsWritten | src/flow/case/mod.rs:21-65 | the legacy loop as written, with an abort outcome; on a context whose `dyn` entry is usable it gives the corrected loop's outcome |
| LegacyCase.AbortsAtFirstPass | src/flow/case/mod.rs:21-65 | from a context without `dyn`, the legacy loop as written aborts exactly when its first point passes; otherwise it ends as the corrected loop |
| LegacyCase.RunCase | src/flow/case/mod.rs:15-58 | the loop's outcome is that of the corrected `Points` from the initial context, `dyn.<id>` written after each passing point (see Findings for the abort as written) |
| LegacyTask.JoinAll | src/task/mod.rs:16-24 | one result per case, in case order, each the run of that case |
| LegacyTask.AnyNotOk | src/task/mod.rs:26-27 | true exactly when some case result is an error |
| LegacyTask.Aggregate | src/task/mod.rs:26-33 | Ok exactly when every case is ok, and then the results unchanged; otherwise Err "000" "any case failure" with the results discarded |
| LegacyTask.RunTask | src/task/mod.rs:12-34 | exactly one run per case context, joined in order, aggregated |
| TaskEnv.Pull | flow/src/flow/task/mod.rs:264 | a load gives the loader's next reply, never more rows than asked, past its replies no rows; the call is logged with its size and row count |
| TaskEnv.ResetLoad | flow/src/flow/task/mod.rs:214 | a reset is logged and leaves the pending pages alone |
| TaskEnv.Call | flow/src/flow/task/mod.rs:249-251 | a reporter call is logged, and succeeds past the reporter's prepared replies |
| TaskSpec.RenderContextCreate | flow/src/flow/task/mod.rs:401-416 | "def" iff the flow has def, "pre" iff there is a pre-stage context, no other key |
| TaskSpec.CaseContextExtendsTaskContext | flow/src/flow/task/mod.rs:401-416 | a case's render context is the task context plus "case", "step" and "curr" |
| TaskSpec.FilterContext | flow/src/flow/task/mod.rs:270-274 | the filter sees the task context with the row under "case" |
| TaskSpec.FilterRows | flow/src/flow/task/mod.rs:269-282 | the kept rows are exactly the page's rows the filter accepts |
| TaskSpec.FilteredLoad | flow/src/flow/task/mod.rs:262-288 | the filtered loop keeps earlier rows as a prefix, returns at most `size` rows, touches the loader only with loads and makes at least one |
| TaskSpec.StageLoad | flow/src/flow/task/mod.rs:255-294 | with or without a filter: at most `size` rows, only loads on the loader |
| TaskSpec.RunRows | flow/src/flow/task/mod.rs:296-336 | one assessment per row, in row order, each the run of the case built from that row with the current actions and round tag |
| TaskSpec.AnyFail | flow/src/flow/task/mod.rs:244 | true exactly when some case state is not Ok |
| TaskSpec.StepVecFrom | flow/src/flow/task/mod.rs:378-399 | one action per step id, in order, each the factory's answer for that step |
| TaskSpec.StepVecFromError | flow/src/flow/task/mod.rs:387-395 | a failed creation is the error of the first step whose factory call failed |
| TaskSpec.FinalAssess | flow/src/flow/task/mod.rs:126-154 | Err(e) when the stages ended with an error, otherwise the accumulated task state |
| TaskSpec.PreArg | flow/src/flow/task/mod.rs:339-353 | the pre-case is case "pre" of execution "pre" on null data with no pre-stage context |
| TaskSpec.PreSteps | flow/src/flow/task/mod.rs:360-367 | Ok exactly when every step is Ok, otherwise Err "012"; every entry is an object |
| TaskSpec.PreStepsKeys | flow/src/flow/task/mod.rs:360-367 | the step map holds exactly the earlier entries and one entry per step name |
| TaskSpec.PreStepsKept | flow/src/flow/task/mod.rs:360-367 | an entry that no step names is left as it was |
| TaskSpec.PreStepsValue | flow/src/flow/task/mod.rs:363-365 | a step's value is at `<sid>.value` unless a later step has the same name |
| TaskSpec.PreCtx | flow/src/flow/task/mod.rs:355-376 | Ok pre-case gives `{"step": {...}}` or "012" for a non-Ok step; Fail gives "020" naming the last step; Err gives "021" with the error text |
| TaskSpec.PreCtxValues | flow/src/flow/task/mod.rs:363 | every Ok step's value is at `step.<sid>.value` (the last step of that id wins) |
| TaskSpec.NewPreShape | flow/src/flow/task/mod.rs:57-113 | a pre-stage context exists exactly when the flow names pre steps; it is then the pre-case's context |
| TaskProps.Mark | flow/src/flow/task/mod.rs:244-248 | a state turns Fail once a reported batch holds a non-Ok case, else stays |
| TaskProps.FailSeenConcat | flow/src/flow/task/mod.rs:244-248 | a failing batch among two stretches of reports is one in either |
| TaskProps.MarkConcat | flow/src/flow/task/mod.rs:244-248 | marking twice is marking over both stretches: Fail is never undone |
| TaskProps.ExtendsTrans | flow/src/flow/task/mod.rs:249-251 | call logs only grow |
| TaskProps.ReportedTrans | flow/src/flow/task/mod.rs:243-251 | the report facts of two stretches of a stage compose |
| TaskProps.LoadsOnlyTrans | flow/src/flow/task/mod.rs:228-252 | two stretches of loads only are loads only |
| TaskProps.BatchReported | flow/src/flow/task/mod.rs:243-251 | one batch: if a case is not Ok, stage and task state become Fail; then exactly one report of the whole batch |
| TaskProps.RunRemainingEffects | flow/src/flow/task/mod.rs:223-253 | the batch loop reports only non-empty batches of the stage, the states follow those batches, the loader sees only loads, the round tag and actions stay |
| TaskProps.CountResets | flow/src/flow/task/mod.rs:214 | the number of resets is at most the number of calls |
| TaskProps.CountResetsConcat | flow/src/flow/task/mod.rs:214 | resets count additively over a log |
| TaskProps.OnlyLoadsNoResets | flow/src/flow/task/mod.rs:228-252 | a stretch of loads holds no reset |
| TaskProps.Rounds | flow/src/flow/task/mod.rs:209-219 | the rounds still to run are at least one |
| TaskProps.ResetsTrans | flow/src/flow/task/mod.rs:214 | resets over two stretches add up |
| TaskProps.RoundBatchesEffects | flow/src/flow/task/mod.rs:211-213 | one round's batches run under the tag "{stage}_{n}" with no reset |
| TaskProps.RoundResetEffects | flow/src/flow/task/mod.rs:214 | the end of a round adds exactly one reset |
| TaskProps.RoundRunEffects | flow/src/flow/task/mod.rs:206-221 | a round loop that ends normally ran max(1, round_max) rounds with one reset after each, and leaves the tag of the last round, "{stage}_{n}" counting from 1 |
| TaskProps.StageRunEffects | flow/src/flow/task/mod.rs:179-204 | the stage state restarts Ok and ends Fail exactly when a batch of the stage had a non-Ok case; the task state follows the same batches |
| TaskProps.StartRunEffects | flow/src/flow/task/mod.rs:160-177 | over the stages run, the task state is Fail exactly when it was or a reported batch failed; every report names one of the stages |
| TaskProps.RunReports | flow/src/flow/task/mod.rs:120-158 | `start` is reported first, then only batches of the flow's stages, then `end` with the returned assessment, Fail exactly when a batch failed unless a stage erred |
| TaskProps.TaskStateStaysFailed | flow/src/flow/task/mod.rs:244-248 | the task state is never set back to Ok |
| TaskProps.EmptyLoad | flow/src/flow/task/mod.rs:228-239 | the first empty load of a round is Err "011" "no case provided"; a later one ends the round normally |
| TaskProps.ElapsedStageIsOk | flow/src/flow/task/mod.rs:197-203 | a stage whose timer fired ends Ok |
| TaskProps.FilteredLoadKeeps | flow/src/flow/task/mod.rs:275-280 | a row is kept only if the filter, with the row as "case", holds |
| TaskProps.FilteredLoadAsks | flow/src/flow/task/mod.rs:264 | each pull asks for at most size minus the rows kept, the first for exactly that |
| TaskProps.FilteredLoadShort | flow/src/flow/task/mod.rs:263-287 | fewer than `size` rows come back only after an empty pull |
| FlowTask.StepVecCreate | flow/src/flow/task/mod.rs:378-399 | the loop's result is `StepVecFrom` |
| FlowTask.PreCtxCreate | flow/src/flow/task/mod.rs:355-376 | the loop's result is `PreCtx` |
| FlowTask.Width | flow/src/flow/task/mod.rs:308 | a group holds `concurrency` cases, one for a concurrency of 0 |
| FlowTask.TaskRunner.Env | flow/src/flow/task/mod.rs:30-47 | the runner's fixed fields |
| FlowTask.TaskRunner.Snapshot | flow/src/flow/task/mod.rs:30-47 | the runner's reassigned fields |
| FlowTask.TaskRunner.constructor | flow/src/flow/task/mod.rs:73-111 | no actions, round tag "", stage and task state Ok |
| FlowTask.TaskRunner.New | flow/src/flow/task/mod.rs:50-114 | the runner's pre-stage parts are those of `NewPre`; any error aborts creation; a fresh runner starts Ok |
| FlowTask.TaskRunner.Run | flow/src/flow/task/mod.rs:120-158 | result and new fields are those of `TaskSpec.Run` |
| FlowTask.TaskRunner.StartRun | flow/src/flow/task/mod.rs:160-177 | result and new fields are those of `TaskSpec.StartRun` over the declared stages |
| FlowTask.TaskRunner.StageRun | flow/src/flow/task/mod.rs:179-204 | result and new fields are those of `TaskSpec.StageRun` |
| FlowTask.TaskRunner.StageRoundRun | flow/src/flow/task/mod.rs:206-221 | outcome and new fields are those of `TaskSpec.RoundRun` from round 0 |
| FlowTask.TaskRunner.RoundOnce | flow/src/flow/task/mod.rs:211-218 | one round: when the loop stops, the outcome and new fields are those of `TaskSpec.RoundRun`; otherwise a later round remains and the rest of `RoundRun` is unchanged |
| FlowTask.TaskRunner.StageDataVecRunRemaining | flow/src/flow/task/mod.rs:223-253 | outcome and new fields are those of `TaskSpec.RunRemaining` from the first load |
| FlowTask.TaskRunner.StageDataVecLoad | flow/src/flow/task/mod.rs:255-294 | the rows and the loader are those of `StageLoad`; nothing else changes |
| FlowTask.TaskRunner.KeepFiltered | flow/src/flow/task/mod.rs:269-282 | appends the page's rows that the filter keeps, in order |
| FlowTask.TaskRunner.CaseArgVec | flow/src/flow/task/mod.rs:320-336 | one case per row in order, named by the row id, on the row data, with the current actions, round tag and pre-stage context |
| FlowTask.TaskRunner.CaseDataVecRun | flow/src/flow/task/mod.rs:296-318 | one assessment per row, in row order; the joined groups cover the rows, each of at most the width, all but the last full |
| FlowTask.RunGroups | flow/src/flow/task/mod.rs:303-317 | the spawn and join loop returns one assessment per argument, in argument order; the groups cover the arguments, each of at most the width, all but the last full |
| OutputCsv.HeadNamesStepCells | output/src/report/csv.rs:105-199 | the column group where a step's cells go is headed "{sid}_state", "{sid}_start", "{sid}_end" of that step |
| OutputCsv.CreateHead | output/src/report/csv.rs:98-118 | 4 + 3n + 1 names: case_state, case_info, case_start, case_end, then "{sid}_state", "{sid}_start", "{sid}_end" per step id in order, then last_step_info |
| OutputCsv.StepsOf | output/src/report/csv.rs:66-71 | the listed ids are exactly the step ids of the given stages |
| OutputCsv.StepIdList | output/src/report/csv.rs:66-71 | the reporter's list holds exactly the step ids of the flow's stages |
| OutputCsv.StepsOfAppend | output/src/report/csv.rs:66-71 | each stage's steps follow the steps of the stages before it: concatenation in stage order |
| OutputCsv.CaseMark | output/src/report/csv.rs:141-154 | "O", "E", "F" exactly for Ok, Err, Fail |
| OutputCsv.StepMark | output/src/report/csv.rs:167-189 | "O", "E", "F" exactly for Ok, Err, Fail |
| OutputCsv.CaseSteps | output/src/report/csv.rs:158-163 | the steps of Ok and Fail cases, none for Err |
| OutputCsv.IndexOf | output/src/report/csv.rs:191-194 | an index holding the id |
| OutputCsv.IndexOfFirst | output/src/report/csv.rs:191-194 | it is the first such index, as `position` answers |
| OutputCsv.LastAt | output/src/report/csv.rs:165-200 | the step whose cells stay in a column group is the last step run under it, or none |
| OutputCsv.LastInfo | output/src/report/csv.rs:203-214 | a string value raw, any other value as JSON text, an error as its text |
| OutputCsv.Slots | output/src/report/csv.rs:165-200 | three cells per step id |
| OutputCsv.SlotStep | output/src/report/csv.rs:191-199 | a step takes over the cells of its own column group only |
| OutputCsv.SlotsStep | output/src/report/csv.rs:191-199 | a step overwrites its three cells at 3 x (index of its id) and no others |
| OutputCsv.Filled | output/src/report/csv.rs:137-201 | every row has 4 + 3n + 1 cells |
| OutputCsv.FilledEmpty | output/src/report/csv.rs:137-156 | before the steps, all step cells and the last cell are "" |
| OutputCsv.FilledStep | output/src/report/csv.rs:191-199 | a step writes its cells at 4 + 3 x (index of its id) |
| OutputCsv.PutCells | output/src/report/csv.rs:197-199 | the cells from `pos` on are replaced, the others kept |
| OutputCsv.WriteStep | output/src/report/csv.rs:166-200 | one step turns the cells written by the earlier steps into those written by one more step: its three cells at its column group, the others kept |
| OutputCsv.CaseCells | output/src/report/csv.rs:137-156 | a fresh row of the header's width, column 0 the case mark, column 1 the error text only for Err, the case times, all else "" |
| OutputCsv.Written | output/src/report/csv.rs:165-200 | the row keeps the header's width after each step's write |
| OutputCsv.WrittenIsFilled | output/src/report/csv.rs:165-200 | writing the steps in order leaves each column group to the last step that ran under it |
| OutputCsv.WrittenNext | output/src/report/csv.rs:166-199 | one turn of the step loop writes that step's group |
| OutputCsv.FillCells | output/src/report/csv.rs:136-201 | the row before the last column is the case columns with the steps written in run order |
| OutputCsv.CaseRow | output/src/report/csv.rs:136-216 | every row has exactly 4 + 3n + 1 cells |
| OutputCsv.ToValueVecAsWritten | output/src/report/csv.rs:136-216 | the code as written has no row (it panics) exactly for a case without steps, so for every Err case; otherwise the row |
| OutputCsv.ToValueVec | output/src/report/csv.rs:136-216 | the row of the case, the last column empty for a case without steps |
| OutputCsv.RowLayout | output/src/report/csv.rs:158-201 | a step that ran last in its group shows its mark and times at 4 + 3 x (index of its id) |
| OutputCsv.UnrunStepCellsEmpty | output/src/report/csv.rs:138-201 | the cells of a step id no step ran under stay "" |
| OutputCsv.FinalFile | output/src/report/csv.rs:37-51 | "{task}_result_{O,E,F}.csv" by task state |
| OutputCsv.FinalFileDistinguishesState | output/src/report/csv.rs:37-51 | Ok, Err and Fail runs end in different files |
| OutputCsv.Reporter.constructor | output/src/report/csv.rs:57-80 | the step list is every stage's step ids in stage order; nothing written yet |
| OutputCsv.Reporter.Start | output/src/report/csv.rs:28-31 | appends exactly the header record |
| OutputCsv.Reporter.Report | output/src/report/csv.rs:120-134 | an empty batch writes nothing; otherwise one row per case, in batch order |
| OutputCsv.Reporter.End | output/src/report/csv.rs:37-54 | renames "{task}_result.csv" to the file carrying the task state |
| PortReport.PointResults | port/src/report/csv.rs:37-41 | the point results of an assessed case; none for a case-level Err |
| PortReport.PointMark | port/src/report/csv.rs:43-48 | "O" exactly for Ok, "X" exactly for Err |
| PortReport.Outcome | port/src/report/csv.rs:56-93 | Ok gives "O","",""; PointError gives "X","",error; PointFailure gives "X","", the last point's value or error; a case-level Err gives "X", the error text, "" |
| PortReport.PortRow | port/src/report/csv.rs:35-95 | one mark per point in run order, "" padding up to head_len - 3 cells, then the three outcome cells |
| PortReport.ToValueVec | port/src/report/csv.rs:35-95 | the padding loop builds exactly `PortRow` |
| PortReport.Pad | port/src/report/csv.rs:50-54 | the padding loop appends exactly `missing` empty cells |
| PortReport.LastLongest | port/src/report/csv.rs:99-111 | `max_by` picks a case with the most points run, the last among equals |
| PortReport.HeadVec | port/src/report/csv.rs:97-127 | the point ids of the longest case in run order, then caseResult, caseInfo, lastPointInfo |
| PortReport.RowsFitHead | port/src/report/csv.rs:22-54 | every row is exactly as wide as the header |
| PortReport.Rows | port/src/report/csv.rs:25-27 | one row per case result, in order, each the `PortRow` of that case |
| PortReport.WriteRecords | port/src/report/csv.rs:22-30 | the header, then one row per case in order; a flush error is returned instead |
| PortReport.Report | port/src/report/csv.rs:6-31 | a bad path gives Err "000" "path error"; an Err task result or no cases writes nothing; otherwise the header and one row per case in order, then the flush's error if any |
| PortLoad.LoadedSpec | port/src/load/data/csv.rs:6-24 | at most `size_limit` records, in reader order; fewer only when the reader ran dry; at the limit one more record is consumed and dropped; an error is Err "csv" for the first malformed record before the limit |
| PortLoad.CsvReader.constructor | port/src/load/data/csv.rs:26-28 | a reader at the start of its records |
| PortLoad.CsvReader.Next | port/src/load/data/csv.rs:9 | hands out the next record and advances, or nothing at the end |
| PortLoad.CsvReader.Load | port/src/load/data/csv.rs:6-24 | the records and the reader position are those of `Loaded` |
| WebJob.Folded | web/src/biz/job.rs:100-116 | Fail once any batch failed, otherwise the starting total: a later Ok batch does not reset it |
| WebJob.BatchesSpec | web/src/biz/job.rs:100-122 | every batch run was written before its state was inspected, in load order; all but the last were full and did not err; the total is the erring batch's Err, else Fail if any batch failed, else Ok, and then the last batch was short; an error is that of the last load or write |
| WebJob.PromiseStep | web/src/biz/job.rs:101-122 | a full, stored, non-erring batch in front of the rest of the loop keeps the loop's promise |
| WebJob.FoldedStep | web/src/biz/job.rs:110-117 | one more batch in front: Fail if it failed, else the fold of the rest |
| WebJob.RunTask0 | web/src/biz/job.rs:75-129 | a setup error aborts before any batch; otherwise the written batch states and the result are those of `Batches`, then a close error |
| WebJob.RunTask | web/src/biz/job.rs:61-73 | an error of `run_task0` becomes the Err task state, a state is passed on |
| WebJob.TaskDirs | web/src/biz/job.rs:29-43 | the task directories of a listing, at most one per entry |
| WebJob.TaskDirsMembers | web/src/biz/job.rs:29-43 | a path is a task directory exactly when it is a directory entry of the listing; erring and non-directory entries are skipped |
| WebJob.TaskDirsSnoc | web/src/biz/job.rs:29-43 | one more entry adds its path exactly when it is a directory |
| WebJob.RunJob | web/src/biz/job.rs:17-59 | aborts exactly when the job directory cannot be listed; otherwise one state per task directory, in listing order, each the state its task run gives |
| WebJob.AllPassingEndsOk | web/src/biz/job.rs:100-122 | a task whose batches all load, store and pass ends Ok |
| DubboJava.TrimStart | step/src/step/dubbo/java.rs:113 | a suffix of the text with every dropped character white space and the first kept one not |
| DubboJava.TrimEnd | step/src/step/dubbo/java.rs:113 | a prefix of the text with every dropped character white space and the last kept one not |
| DubboJava.Trim | step/src/step/dubbo/java.rs:113 | neither end of the trimmed text is white space |
| DubboJava.NonEmptyTrimmed | step/src/step/dubbo/java.rs:113-115 | no more parts than pieces, and no part is empty |
| DubboJava.SplitFromClean | step/src/step/dubbo/java.rs:112 | characters that are not separators stay in the piece being read |
| DubboJava.SplitTypes | step/src/step/dubbo/java.rs:112 | a comma-separated run of clean names splits back into those names |
| DubboJava.TrimClean | step/src/step/dubbo/java.rs:113 | trimming leaves a clean name unchanged |
| DubboJava.NonEmptyTrimmedAppend | step/src/step/dubbo/java.rs:113-115 | trimming and filtering works piece by piece over a concatenation |
| DubboJava.NonEmptyTrimmedClean | step/src/step/dubbo/java.rs:113-115 | clean names pass the trim and the filter unchanged |
| DubboJava.SignatureParts | step/src/step/dubbo/java.rs:111-149 | parsing `iface#method(t1,...,tn)` built from clean names gives back the interface, the method and the argument types in order |
| DubboJava.TypeParts | step/src/step/dubbo/java.rs:111-149 | the pieces after the opening parenthesis give back exactly the argument types |
| DubboJava.TypePieces | step/src/step/dubbo/java.rs:112 | the raw pieces of the argument list are the types then one empty piece |
| DubboJava.SplitAfterHead | step/src/step/dubbo/java.rs:112-148 | the first two pieces of a signature are the interface and the method |
| DubboJava.Render | step/src/step/dubbo/java.rs:237-252 | null stays null; a string is rendered as it is, any other value pretty printed first ("032" "invalid content" when that fails); the rendered text is parsed back |
| DubboJava.RenderAllSpec | step/src/step/dubbo/java.rs:120-129 | on success one rendered value per element, each the element's own rendering, in order; on failure the error of the first element that fails |
| DubboJava.RenderArgs | step/src/step/dubbo/java.rs:122-129 | the loop pushes exactly the renderings `RenderAll` gives, stopping at the first error |
| DubboJava.ArgsOf | step/src/step/dubbo/java.rs:120-134 | an array is rendered element-wise (`RenderAllSpec`); anything else is rendered whole, its render error passed on, and must give an array, else "010" "missing args" |
| DubboJava.Args | step/src/step/dubbo/java.rs:120-134 | the argument loop gives `ArgsOf` |
| DubboJava.Run | step/src/step/dubbo/java.rs:107-160 | "010" "missing method" without a method string, "010" "invalid method" for fewer than two parts; then an argument error is passed on, the call names parts[0], parts[1], parts[2..], application "chord", the runner's registry and port and the arguments of `ArgsOf`, a transport error is passed on, and a reply gives its `Verdict` |
| DubboJava.Verdict | step/src/step/dubbo/java.rs:153-159 | Ok exactly when `success` is true, then `data`; otherwise Err "dubbo" "{code}::{message}" |
| DubboJava.FactorySettings | step/src/step/dubbo/java.rs:27-54 | "010" "missing config" for none or null; "missing jar_path", "missing port", "missing registry_address" in that order; every error "010"; the protocol defaults to "zookeeper" |
| DubboJava.NewRunner | step/src/step/dubbo/java.rs:27-96 | a settings or start error is returned; otherwise every runner carries the factory's protocol, address and port |
| StepRedis.ReplyToJson | step/src/step/redis.rs:76-90 | Nil is null, Int a number, data the JSON it parses to or else its lossy text, a status its text, Okay "OK", anything else an empty array |
| StepRedis.ReplyOrigin | step/src/step/redis.rs:76-90 | each kind of JSON result comes only from the replies named, and only data replies depend on the text conversions |
| StepRedis.CommandArgs | step/src/step/redis.rs:66-73 | no arguments unless `args` renders to an array; then one per element |
| StepRedis.PushArgs | step/src/step/redis.rs:69-73 | the loop appends each element's text in order, and no other |
| StepRedis.Run0 | step/src/step/redis.rs:58-92 | equals `Run0Spec`: "010" "missing cmd" without a command; a success needs a connection; errors of render, connect, args and query end the run in that order |
| StepRedis.RenderedUrl | step/src/step/redis.rs:19-22 | "010" "missing url" without a url string; otherwise the rendering of the url |
| StepRedis.Create | step/src/step/redis.rs:18-33 | the url error is returned; a url that is not task shared gives a runner without client and is not opened; a task-shared url is opened once, its error returned |
| StepRedis.Run | step/src/step/redis.rs:42-55 | equals `RunSpec`: a client is used as it is, otherwise the url is rendered and opened for this run ("010" "missing url" without one) |
| StepRedis.SharedClientAgrees | step/src/step/redis.rs:24-54 | opening a shared url at creation gives the same result as resolving it on each run |
| StepRedis.UnsharedChecksUrl | step/src/step/redis.rs:43-54 | without a client a missing url is "010" "missing url"; with a client the url is never looked at again |
| PointRedis.Create | point/src/point/redis.rs:17-19 | always a runner, whatever the configuration |
| PointRedis.Run | point/src/point/redis.rs:23-65 | "010" "missing url" without a url, then "012" "missing cmd" without a command; then open, connect, the configured arguments unrendered, the query and the reply |
| PointRedis.AgreesWithStep | point/src/point/redis.rs:23-65 | for the same url, command and arguments the point answers as the redis step does |
| SleepAction.ParseU64 | action/src/action/sleep.rs:34 | accepts exactly an optional '+' then one or more decimal digits denoting a number below 2^64, and yields that number |
| SleepAction.ParseDisplayed | action/src/action/sleep.rs:34 | the decimal text of any `u64`, with or without '+', parses back to it |
| SleepAction.DigitsOfNatText | action/src/action/sleep.rs:34 | the decimal text of a number is all digits and denotes it |
| SleepAction.ParseRejects | action/src/action/sleep.rs:34 | the empty text, a lone '+' and any text starting with '-' do not parse |
| SleepAction.Seconds | action/src/action/sleep.rs:27-37 | null is "sleep" "duration must > 0"; a `u64` number as it is; a string parsed or its parse error; anything else 0 |
| SleepAction.Run | action/src/action/sleep.rs:26-45 | a render error is returned; a success is null |
| SleepAction.RunAccepts | action/src/action/sleep.rs:28-44 | the run succeeds exactly for a `u64` of at least 1 or a string parsing to one; other non-strings fail with "duration must > 0" |
| SleepAction.AcceptsPositive | action/src/action/sleep.rs:31-44 | every positive `u64`, as a number and as its decimal text, is accepted |
| CmdConf.NewConfig | cmd/src/conf.rs:11-19 | keeps the document and the default report `{"csv": {"dir": "/data/chord/job/output"}}` |
| CmdConf.LogPath | cmd/src/conf.rs:23-27 | `log.path` when it is a string, else "/data/chord/job/output/cmd.log" |
| CmdConf.StringEntries | cmd/src/conf.rs:32-36 | exactly the string-valued entries, as key and text pairs; each key once when the keys are listed once |
| CmdConf.LogLevel | cmd/src/conf.rs:29-40 | nothing unless `log.level` is an object; then exactly its string-valued entries, each key once |
| CmdConf.Action | cmd/src/conf.rs:42-44 | present exactly when the document has an `action` entry, and then that entry |
| CmdConf.Report | cmd/src/conf.rs:46-52 | never absent: the `report` entry when there is one, else the default report |
| CmdConf.DefaultReportDir | cmd/src/conf.rs:12-52 | without a `report` entry the report goes to csv directory "/data/chord/job/output" |
| ModelError.New | src/model/error.rs:18-24 | the given code and message, no cause |
| ModelError.Cause | src/model/error.rs:26-32 | the given code and message, wrapping the cause |
| ModelError.Display | src/model/error.rs:45-50 | `{ "code": "<code>", "message": "<message>" }`: its length and its fixed ends |
| ModelError.DisplayDetermines | src/model/error.rs:45-50 | for codes without a quote, two errors display alike exactly when code and message agree |
| ModelError.DisplayHidesCause | src/model/error.rs:45-50 | the cause does not show in the text |
| ModelError.FromIo | src/model/error.rs:53-57 | code "io", the message the debug text of the error kind, no cause |

## Left out

- Concurrency: `spawn` and `join_all` are an order-preserving sequential map over each group of cases. Completion order, thread-local context ids and cancellation are not modelled.
- Timers and panics: the step timeout and `catch_unwind` are abstract outcome inputs of `StepRun.Run`.
- The stage duration is an `elapsed(stage, loads)` oracle. It is consulted before each load of the round loop, so a stage that times out stops between batches and never drops a batch in flight. As in the source, a stage that times out is Ok.
- Template evaluation: Handlebars rendering, its `#if` helper and the case filter are opaque functions that may fail.
- serde: parsing, printing, pretty printing and `Display` of JSON values are opaque functions. chrono timestamps and the "%T" format are opaque too.
- FlowTask.TaskRunner.New and TaskSpec.PreCtx: a Fail pre-case is required to carry at least one step. The source unwraps `last()` on it, and a Fail case without steps would panic there.
- FlowTask.TaskRunner.Run: every stage the flow lists is required to have a declaration. The source indexes the flow document, and a missing one is a panic inside the flow parser, which is not part of this model.
- `concurrency` 0 groups cases one at a time (`Width(0) == 1`). This is what the source's `futures.len() >= 0` test does.
- PortReport.Report: a PointFailure case is required to carry point results (`Judged`). The source unwraps the last point result and would panic on an empty list.
- PortReport.Report and OutputCsv.Reporter: the csv writer and the file are modelled as the list of records written. Write errors that the source unwraps or ignores are not modelled.
- OutputCsv.Reporter.End: the file rename is modelled by the names involved. Its I/O error is not modelled.
- WebJob.BatchesSpec, WebJob.RunTask0 and WebJob.RunTask require `case_batch_size > 0`. With 0, a short batch never ends the source's loop.
- WebJob.RunTask0: the data loader and the MongoDB report store are the replies they give to each call in turn (`loads`, `writes`), and the flow and loader setup is one `setup` outcome.
- WebJob.RunJob: the job directory's listing is an input. Each task directory's run is the `runTask` parameter, the state that `run_task` gives it. The tasks are spawned concurrently in the source; the model runs them as an order-preserving map. Task naming through `TASK_ID` and the collection handle are not modelled.
- DubboJava.NewRunner: spawning the java gateway and scanning its stdout for the start line are one `start` outcome. The "020" errors of that loop are values of `start`.
- DubboJava.Run: the HTTP call to the gateway and the parsing of its reply are the `invoke` parameter.
- OutputCsv.ToValueVec, OutputCsv.Reporter.Report: an Err case, which carries no step assessments, gets a row whose last column is empty. As written the source panics there (see Findings); `OutputCsv.ToValueVecAsWritten` models that.
- CaseRun.RegisterDyn, CaseRun.RegisterDynamic: the corrected registration, which creates a missing `dyn` entry. As written the source aborts there (see Findings); `CaseRun.RegisterDynAsWritten` models that.
- CaseRun.Points: the corrected loop. As written, from a context without a `dyn` entry, a case aborts at its first passing point; `CaseRun.PointsAsWritten` and `CaseRun.AbortsAtFirstPass` state that. The point revision's `create_render_context` is not part of this model (`flow/src/flow/case/arg.rs` belongs to the step revision), so whether its contexts hold `dyn` is not stated.
- CaseRun.PassedPointIsRegistered: about the corrected loop; as written the registration it describes aborts the program.
- CaseRun.Run: runs the corrected loop, so it does not abort where the source does (see Findings).
- LegacyCase.Points: the corrected legacy loop. As written a passing point aborts the program when the context has no `dyn` entry; `LegacyCase.PointsAsWritten` models that.
- RunCase (LegacyCase.RunCase): runs the corrected legacy loop, so it does not abort where the source does. The legacy `create_render_context` (`src/flow/case/model.rs`) is not part of this model, so whether its contexts hold `dyn` is not stated.
- StepRedis and PointRedis: opening clients, connecting and `query_async` are the replies of a `Server`. Pooling and the connection itself are not modelled.
- SleepAction.Run: the sleep itself is an effect and is not modelled. The conversion of a parse error into an `Error` is the `parseError` parameter.
- CmdConf.LogLevel: the iteration order of the `log.level` object is the `order` parameter. The source's map type fixes that order, and the contract states the entries up to order.
- ModelError: `get_code` and `get_message` are field reads, used in the contracts of `New`, `Cause` and `FromIo`. The `cause` chain of `std::error::Error` is commented out in the source and is not modelled.
- Not part of this model: the Lua, dylib, crypto and echo actions, the url_decode step, the sleep and jsonapi points, `src/point/mod.rs`, and the CLI, bootstrap and HTTP plumbing (`exe/src/main.rs`, `cmd/src/main.rs`, `cmd/src/job.rs`, `web/src/main.rs`). These are interpreters, native-code loading, library wrappers or process plumbing, outside the engine.

## Findings

| source | as written | input that shows it | evidently intended | confidence | as-written member | corrected member |
|---|---|---|---|---|---|---|
| flow/src/flow/case/mod.rs:56 | `data["dyn"][point_id] = …` indexes the context's JSON map by "dyn", and the map's index operator aborts on a missing key | a case whose initial context has no "dyn" entry and whose first point is created, runs Ok and passes its assertion | the passed point's value is registered at `dyn.<point id>`, with the `dyn` object created on first use, so later points can refer to it | not executed; the point revision's `create_render_context` is not part of this model | CaseRun.PointsAsWritten | CaseRun.RegisterDyn |
| src/flow/case/mod.rs:63 | the same registration in the legacy case loop | a case whose initial context has no "dyn" entry and whose first point passes | as above | not executed; the legacy `create_render_context` is not part of this model | LegacyCase.PointsAsWritten | LegacyCase.Points |
| output/src/report/csv.rs:203 | the last column is read with `pa_vec.last().unwrap()` | any case whose state is `CaseState::Err`, which carries no step assessments | an Err case gets a row whose last column is empty, since its error is already in column 1 | not executed | OutputCsv.ToValueVecAsWritten | OutputCsv.ToValueVec |
