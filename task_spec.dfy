/** The specification of the task runner of the engine revision
    (`flow/src/flow/task/mod.rs`): each of its loops as a function of the
    runner's fields before the call, giving the result and the fields after
    it. The runner's methods are proved equal to these functions, and the
    properties of the runner are proved about them. */
module TaskSpec {
  import opened Common
  import opened JsonValue
  import opened Chord
  import opened CaseArg
  import opened StepArg
  import opened TaskEnv

  /** `render_context_create`: "def" when the flow has constant data and
      "pre" when the task has a pre-stage context, nothing else. */
  function RenderContextCreate(flow: Flow, preCtx: Option<Json>): (r: Json)
    ensures r.Obj?
    ensures ("def" in r.fields) <==> flow.def.Some?
    ensures flow.def.Some? ==> r.fields["def"] == flow.def.value
    ensures ("pre" in r.fields) <==> preCtx.Some?
    ensures preCtx.Some? ==> r.fields["pre"] == preCtx.value
    ensures forall k :: k in r.fields ==> k in {"def", "pre"}
  {
    var withDef: map<string, Json> := if flow.def.Some? then map["def" := flow.def.value] else map[];
    Obj(if preCtx.Some? then withDef["pre" := preCtx.value] else withDef)
  }

  /** The context a case's own render context extends: the case context is
      the task context plus the row under "case", "step" and "curr". */
  lemma CaseContextExtendsTaskContext<A>(c: CaseArgStruct<A>)
    ensures var task := RenderContextCreate(c.flow, c.preCtx);
            var case_ := CreateRenderContext(c);
            (forall k :: k in task.fields ==> k in case_.fields && case_.fields[k] == task.fields[k]) &&
            case_.fields.Keys == task.fields.Keys + {"case", "step", "curr"}
  {
  }

  /** The data a case filter is evaluated against: the task context with the
      row under "case". */
  function FilterContext(flow: Flow, preCtx: Option<Json>, data: Json): (r: Json)
    ensures r.Obj? && Get(r, "case") == data
  {
    SetMember(RenderContextCreate(flow, preCtx), "case", data)
  }

  /** Whether the stage's filter keeps a row. */
  predicate Keeps<A>(t: TaskEnv<A>, filter: string, row: Row)
  {
    t.engine.filter(FilterContext(t.flow, t.preCtx, row.1), filter)
  }

  /** The rows of one page that the filter keeps, in page order. */
  function FilterRows<A>(t: TaskEnv<A>, filter: string, rows: seq<Row>): (r: seq<Row>)
    ensures |r| <= |rows|
    ensures forall k | 0 <= k < |r| :: r[k] in rows && Keeps(t, filter, r[k])
    ensures forall k | 0 <= k < |rows| :: Keeps(t, filter, rows[k]) ==> rows[k] in r
  {
    if rows == [] then []
    else
      var last := rows[|rows| - 1];
      var init := FilterRows(t, filter, rows[..|rows| - 1]);
      assert forall x :: x in rows[..|rows| - 1] ==> x in rows;
      assert forall k | 0 <= k < |rows| - 1 :: rows[k] == rows[..|rows| - 1][k];
      init + (if Keeps(t, filter, last) then [last] else [])
  }

  /** Every call in `calls` is a load. */
  predicate OnlyLoads(calls: seq<LoadCall>)
  {
    forall k | 0 <= k < |calls| :: calls[k].Load?
  }

  /** `log` starts with `prior`. */
  predicate Extends<T(==)>(log: seq<T>, prior: seq<T>)
  {
    |prior| <= |log| && log[..|prior|] == prior
  }

  /** Two stretches of loads make one. */
  lemma LoadsExtend(a: seq<LoadCall>, b: seq<LoadCall>, c: seq<LoadCall>)
    requires Extends(b, a) && OnlyLoads(b[|a|..])
    requires Extends(c, b) && OnlyLoads(c[|b|..])
    ensures Extends(c, a) && OnlyLoads(c[|a|..])
  {
    assert c[..|a|] == c[..|b|][..|a|];
    forall k | 0 <= k < |c| - |a|
      ensures c[|a|..][k].Load?
    {
      if |a| + k < |b| {
        assert c[|a| + k] == c[..|b|][|a| + k] == b[|a|..][k];
      } else {
        assert c[|a| + k] == c[|b|..][|a| + k - |b|];
      }
    }
  }

  /** Rows kept before a further pull stay in front. */
  lemma KeptPrefix(r: Result<seq<Row>, Error>, more: seq<Row>, kept: seq<Row>)
    requires |kept| <= |more| && more[..|kept|] == kept
    requires r.Ok? ==> |more| <= |r.value| && r.value[..|more|] == more
    ensures r.Ok? ==> |kept| <= |r.value| && r.value[..|kept|] == kept
  {
    if r.Ok? {
      assert r.value[..|kept|] == r.value[..|more|][..|kept|];
    }
  }

  /** The filtered load loop, given the rows kept so far: pull the missing
      number of rows, keep those the filter accepts, and stop at an empty
      page or once `size` rows are kept. */
  function FilteredLoad<A>(t: TaskEnv<A>, filter: string, l: CaseLoad, size: nat, kept: seq<Row>)
    : (res: (Result<seq<Row>, Error>, CaseLoad))
    requires |kept| <= size
    ensures |res.1.pages| <= |l.pages|
    ensures res.0.Ok? ==> |kept| <= |res.0.value| <= size && res.0.value[..|kept|] == kept
    ensures res.0.Ok? && |res.0.value| > |kept| ==> |res.1.pages| < |l.pages|
    ensures res.1.resets == l.resets
    ensures Extends(res.1.log, l.log) && |res.1.log| > |l.log| && OnlyLoads(res.1.log[|l.log|..])
    decreases |l.pages|
  {
    var (page, l1) := Pull(l, size - |kept|);
    assert l1.log[|l.log|..] == [l1.log[|l.log|]];
    match page
    case Err(e) => (Result.Err(e), l1)
    case Ok(rows) =>
      if rows == [] then (Result.Ok(kept), l1)
      else
        var more := kept + FilterRows(t, filter, rows);
        if |more| >= size then (Result.Ok(more), l1)
        else
          var res := FilteredLoad(t, filter, l1, size, more);
          assert more[..|kept|] == kept;
          KeptPrefix(res.0, more, kept);
          LoadsExtend(l.log, l1.log, res.1.log);
          res
  }

  /** `stage_data_vec_load`: with a case filter the filtered loop, otherwise
      one load of `size` rows. */
  function StageLoad<A>(t: TaskEnv<A>, l: CaseLoad, stageId: string, size: nat)
    : (res: (Result<seq<Row>, Error>, CaseLoad))
    requires stageId in t.flow.stages
    ensures |res.1.pages| <= |l.pages|
    ensures res.0.Ok? ==> |res.0.value| <= size
    ensures res.0.Ok? && res.0.value != [] ==> |res.1.pages| < |l.pages|
    ensures res.1.resets == l.resets
    ensures Extends(res.1.log, l.log) && OnlyLoads(res.1.log[|l.log|..])
  {
    match t.flow.stages[stageId].caseFilter
    case Some(filter) => FilteredLoad(t, filter, l, size, [])
    case None =>
      var res := Pull(l, size);
      assert res.1.log[|l.log|..] == [Load(size, if res.0.Ok? then |res.0.value| else 0)];
      res
  }

  /** `case_arg_vec` followed by the case runs: one assessment per row, in
      row order, each of the case built from that row with the runner's
      current actions and execution id. */
  function RunRows<A>(t: TaskEnv<A>, stepVec: seq<(string, A)>, execId: string, rows: seq<Row>)
    : (r: seq<CaseAssess>)
    ensures |r| == |rows|
    ensures forall k | 0 <= k < |rows| ::
      r[k] == t.engine.runCase(NewCaseArg(t.flow, stepVec, rows[k].1, t.preCtx, t.id, rows[k].0, execId))
  {
    if rows == [] then []
    else
      RunRows(t, stepVec, execId, rows[..|rows| - 1]) +
      [t.engine.runCase(NewCaseArg(t.flow, stepVec, rows[|rows| - 1].1, t.preCtx, t.id, rows[|rows| - 1].0, execId))]
  }

  /** `case_assess_vec.iter().any(|ca| !ca.state().is_ok())`. */
  function AnyFail(batch: seq<CaseAssess>): (r: bool)
    ensures r <==> exists k | 0 <= k < |batch| :: !batch[k].state.IsOk()
  {
    if batch == [] then false
    else
      assert forall k | 0 <= k < |batch| - 1 :: batch[k] == batch[..|batch| - 1][k];
      AnyFail(batch[..|batch| - 1]) || !batch[|batch| - 1].state.IsOk()
  }

  /** How a stage's round loop ended: normally, by the stage timer, or with
      an error. */
  datatype Outcome = Done | Elapsed | Failed(error: Error)

  /** `stage_data_vec_run_remaining`, given the number of loads done in this
      round: load a batch, run it, mark the stage and the task as failed if
      any case is not Ok, report the batch; the first empty load of a round
      is an error, a later one ends the round. */
  function RunRemaining<A>(t: TaskEnv<A>, m: Machine<A>, stageId: string, concurrency: nat, loadTimes: nat)
    : (res: (Outcome, Machine<A>))
    requires stageId in t.flow.stages
    decreases |m.load.pages|
  {
    if t.engine.elapsed(stageId, |m.load.log|) then (Elapsed, m)
    else
      var (loaded, load1) := StageLoad(t, m.load, stageId, concurrency);
      var m1 := m.(load := load1);
      match loaded
      case Err(e) => (Failed(e), m1)
      case Ok(rows) =>
        if rows == [] then
          (if loadTimes + 1 == 1 then (Failed(Error("011", "no case provided")), m1) else (Done, m1))
        else
          var batch := RunRows(t, m1.stepVec, m1.caseExecId, rows);
          var m2 := if AnyFail(batch) then m1.(stageState := TaskState.Fail, taskState := TaskState.Fail) else m1;
          var (failure, report3) := Call(m2.report, Report(stageId, batch));
          var m3 := m2.(report := report3);
          if failure.Some? then (Failed(failure.value), m3)
          else RunRemaining(t, m3, stageId, concurrency, loadTimes + 1)
  }

  /** The round tag "{stage}_{n}" of round `n`. */
  function RoundTag(stageId: string, n: nat): string
  {
    stageId + "_" + NatText(n)
  }

  /** `stage_round_run`, from round `roundCount` on: every round runs the
      batches under a fresh round tag and then resets the loader; the loop
      stops once `roundMax` rounds have run, and always runs at least one. */
  function RoundRun<A>(t: TaskEnv<A>, m: Machine<A>, stageId: string, concurrency: nat, roundMax: nat, roundCount: nat)
    : (res: (Outcome, Machine<A>))
    requires stageId in t.flow.stages
    requires roundCount == 0 || roundCount < roundMax
    decreases roundMax - roundCount
  {
    var m1 := m.(caseExecId := RoundTag(stageId, roundCount + 1));
    var (outcome, m2) := RunRemaining(t, m1, stageId, concurrency, 0);
    if !outcome.Done? then (outcome, m2)
    else
      var (failure, load3) := ResetLoad(m2.load);
      var m3 := m2.(load := load3);
      if failure.Some? then (Failed(failure.value), m3)
      else if roundCount + 1 >= roundMax then (Done, m3)
      else RoundRun(t, m3, stageId, concurrency, roundMax, roundCount + 1)
  }

  /** The factory argument of step `sid` in a task context. */
  function CreateArgFor<A>(t: TaskEnv<A>, context: Json, sid: string): CreateArgStruct
  {
    NewCreateArg(t.flow, t.engine.render, context, t.id, t.flow.StepOf(sid).action, sid)
  }

  /** `step_vec_create`, after the actions `done` were created: each step id
      gets its action from the factory, in order; the first factory error
      is the result. */
  function StepVecFrom<A>(t: TaskEnv<A>, context: Json, ids: seq<string>, done: seq<(string, A)>)
    : (r: Result<seq<(string, A)>, Error>)
    ensures r.Ok? ==> |r.value| == |done| + |ids| && r.value[..|done|] == done
    ensures r.Ok? ==> forall k | 0 <= k < |ids| ::
      r.value[|done| + k].0 == ids[k] && t.engine.create(CreateArgFor(t, context, ids[k])) == Result.Ok(r.value[|done| + k].1)
    decreases |ids|
  {
    if ids == [] then Result.Ok(done)
    else
      match t.engine.create(CreateArgFor(t, context, ids[0]))
      case Err(e) => Result.Err(e)
      case Ok(action) =>
        var r := StepVecFrom(t, context, ids[1..], done + [(ids[0], action)]);
        assert r.Ok? ==> r.value[..|done|] == r.value[..|done| + 1][..|done|];
        r
  }

  /** A failed action creation is the first step whose factory call failed. */
  lemma {:induction false} StepVecFromError<A>(t: TaskEnv<A>, context: Json, ids: seq<string>, done: seq<(string, A)>)
    requires StepVecFrom(t, context, ids, done).Err?
    ensures exists k | 0 <= k < |ids| ::
      t.engine.create(CreateArgFor(t, context, ids[k])) == Result.Err(StepVecFrom(t, context, ids, done).error) &&
      forall j | 0 <= j < k :: t.engine.create(CreateArgFor(t, context, ids[j])).Ok?
    decreases |ids|
  {
    var e := StepVecFrom(t, context, ids, done).error;
    var first := t.engine.create(CreateArgFor(t, context, ids[0]));
    if first.Err? {
      assert first == Result.Err(e);
    } else {
      var rest := ids[1..];
      StepVecFromError(t, context, rest, done + [(ids[0], first.value)]);
      var k :| 0 <= k < |rest| &&
        t.engine.create(CreateArgFor(t, context, rest[k])) == Result.Err(e) &&
        forall j | 0 <= j < k :: t.engine.create(CreateArgFor(t, context, rest[j])).Ok?;
      assert forall j | 1 <= j < k + 1 :: ids[j] == rest[j - 1];
      assert ids[k + 1] == rest[k];
    }
  }

  /** `stage_run`: the stage state starts Ok, the stage's actions are created
      against the task context, then the rounds run; a stage whose timer
      fired ends normally. */
  function StageRun<A>(t: TaskEnv<A>, m: Machine<A>, stageId: string)
    : (res: (Result<(), Error>, Machine<A>))
    requires stageId in t.flow.stages
  {
    var m0 := m.(stageState := TaskState.Ok);
    var conf := t.flow.stages[stageId];
    match StepVecFrom(t, RenderContextCreate(t.flow, t.preCtx), conf.steps, [])
    case Err(e) => (Result.Err(e), m0)
    case Ok(actions) =>
      var m1 := m0.(stepVec := actions);
      var (outcome, m2) := RoundRun(t, m1, stageId, conf.concurrency, conf.round, 0);
      if outcome.Failed? then (Result.Err(outcome.error), m2) else (Result.Ok(()), m2)
  }

  /** `start_run` over the stages still to run: a stage error ends the task
      run; a failed stage whose break policy is "stage_fail" skips the rest. */
  function StartRun<A>(t: TaskEnv<A>, m: Machine<A>, stageIds: seq<string>)
    : (res: (Result<(), Error>, Machine<A>))
    requires forall s | s in stageIds :: s in t.flow.stages
    decreases |stageIds|
  {
    if stageIds == [] then (Result.Ok(()), m)
    else
      var (r, m1) := StageRun(t, m, stageIds[0]);
      if r.Err? then (r, m1)
      else if m1.stageState == TaskState.Fail && t.flow.stages[stageIds[0]].breakOn == "stage_fail" then (r, m1)
      else StartRun(t, m1, stageIds[1..])
  }

  /** The assessment `run` reports at the end. */
  function FinalAssess(id: TaskId, started: Result<(), Error>, taskState: TaskState): (a: TaskAssess)
    ensures a.id == id
    ensures started.Err? ==> a.state == TaskState.Err(started.error)
    ensures started.Ok? ==> a.state == taskState
  {
    match started
    case Err(e) => TaskAssess(id, TaskState.Err(e))
    case Ok(_) =>
      match taskState
      case Ok => TaskAssess(id, TaskState.Ok)
      case Fail => TaskAssess(id, TaskState.Fail)
      case Err(e) => TaskAssess(id, TaskState.Err(e))
  }

  /** `run`: report the start, run the stages, report the final assessment. */
  function Run<A>(t: TaskEnv<A>, m: Machine<A>): (res: (Result<TaskAssess, Error>, Machine<A>))
    requires StagesDeclared(t.flow)
  {
    var (startFailure, report1) := Call(m.report, Start);
    var m1 := m.(report := report1);
    if startFailure.Some? then (Result.Err(startFailure.value), m1)
    else
      var (started, m2) := StartRun(t, m1, t.flow.stageIds);
      var assess := FinalAssess(t.id, started, m2.taskState);
      var (endFailure, report3) := Call(m2.report, End(assess));
      var m3 := m2.(report := report3);
      if endFailure.Some? then (Result.Err(endFailure.value), m3) else (Result.Ok(assess), m3)
  }

  /** `pre_arg`: the pre-stage runs as case "pre" of execution "pre" on null
      data, without a pre-stage context. */
  function PreArg<A>(flow: Flow, id: TaskId, preStepVec: seq<(string, A)>): (c: CaseArgStruct<A>)
    ensures c.data == Null && c.preCtx.None? && c.stepVec == preStepVec
    ensures CaseIdText(c.id) == id.text + "-pre-pre"
  {
    NewCaseArg(flow, preStepVec, Null, None, id, "pre", "pre")
  }

  /** The step names of the assessments from index `i` on. */
  function StepNames(steps: seq<StepAssess>, i: nat): set<string>
  {
    set k | i <= k < |steps| :: steps[k].id.step
  }

  lemma StepNamesNext(steps: seq<StepAssess>, i: nat)
    requires i < |steps|
    ensures StepNames(steps, i) == {steps[i].id.step} + StepNames(steps, i + 1)
  {
    assert steps[i].id.step in StepNames(steps, i);
  }

  /** The step map of the pre-stage context after the steps from index `i`
      on, each recording its value as `{"value": v}`; the first step that is
      not Ok gives "012". */
  function PreSteps(steps: seq<StepAssess>, i: nat, entries: map<string, Json>): (r: Result<map<string, Json>, Error>)
    requires i <= |steps|
    requires forall s | s in entries :: entries[s].Obj?
    ensures r.Ok? <==> forall k | i <= k < |steps| :: steps[k].state.Ok?
    ensures r.Err? ==> r.error == Error("012", "pre step run failure")
    ensures r.Ok? ==> forall s | s in r.value :: r.value[s].Obj?
    decreases |steps| - i
  {
    if i == |steps| then Result.Ok(entries)
    else
      match steps[i].state
      case Ok(v) =>
        var sid := steps[i].id.step;
        var entry := SetMember(if sid in entries then entries[sid] else Null, "value", v);
        PreSteps(steps, i + 1, entries[sid := entry])
      case _ => Result.Err(Error("012", "pre step run failure"))
  }

  /** A successful `PreSteps` has the old entries plus one per step name. */
  lemma {:induction false} PreStepsKeys(steps: seq<StepAssess>, i: nat, entries: map<string, Json>)
    requires i <= |steps|
    requires forall s | s in entries :: entries[s].Obj?
    requires PreSteps(steps, i, entries).Ok?
    ensures PreSteps(steps, i, entries).value.Keys == entries.Keys + StepNames(steps, i)
    decreases |steps| - i
  {
    if i < |steps| {
      var v := steps[i].state.value;
      var sid := steps[i].id.step;
      var entry := SetMember(if sid in entries then entries[sid] else Null, "value", v);
      PreStepsKeys(steps, i + 1, entries[sid := entry]);
      StepNamesNext(steps, i);
    }
  }

  /** An entry that no step from index `i` on names is kept unchanged. */
  lemma {:induction false} PreStepsKept(steps: seq<StepAssess>, i: nat, entries: map<string, Json>, s: string)
    requires i <= |steps|
    requires forall s | s in entries :: entries[s].Obj?
    requires PreSteps(steps, i, entries).Ok?
    requires s in entries && forall k | i <= k < |steps| :: steps[k].id.step != s
    ensures s in PreSteps(steps, i, entries).value && PreSteps(steps, i, entries).value[s] == entries[s]
    decreases |steps| - i
  {
    if i < |steps| {
      var v := steps[i].state.value;
      var sid := steps[i].id.step;
      var entry := SetMember(if sid in entries then entries[sid] else Null, "value", v);
      PreStepsKept(steps, i + 1, entries[sid := entry], s);
    }
  }

  /** The value of step `k` is recorded at `<sid>.value` unless a later step
      has the same name. */
  lemma {:induction false} PreStepsValue(steps: seq<StepAssess>, i: nat, entries: map<string, Json>, k: nat)
    requires i <= k < |steps|
    requires forall s | s in entries :: entries[s].Obj?
    requires PreSteps(steps, i, entries).Ok?
    requires forall j | k < j < |steps| :: steps[j].id.step != steps[k].id.step
    ensures var r := PreSteps(steps, i, entries).value;
      steps[k].id.step in r && Get(r[steps[k].id.step], "value") == steps[k].state.value
    decreases |steps| - i
  {
    var v := steps[i].state.value;
    var sid := steps[i].id.step;
    var entry := SetMember(if sid in entries then entries[sid] else Null, "value", v);
    var next := entries[sid := entry];
    if k == i {
      PreStepsKept(steps, i + 1, next, sid);
    } else {
      PreStepsValue(steps, i + 1, next, k);
    }
  }

  /** `pre_ctx_create`: an Ok pre-case gives `{"step": {sid: {"value": v}}}`;
      a failed one gives "020" naming its last step, an erring one "021". */
  function PreCtx(a: CaseAssess, errText: Error -> string): (r: Result<Json, Error>)
    requires a.state.Fail? ==> |a.state.steps| > 0
    ensures a.state.Ok? ==> (r.Ok? <==> forall k | 0 <= k < |a.state.steps| :: a.state.steps[k].state.Ok?)
    ensures a.state.Ok? && r.Err? ==> r.error == Error("012", "pre step run failure")
    ensures a.state.Fail? ==> r == Result.Err(Error("020", "pre Fail : " + StepIdText(a.state.steps[|a.state.steps| - 1].id)))
    ensures a.state.Err? ==> r == Result.Err(Error("021", "pre Err  : " + errText(a.state.error)))
    ensures r.Ok? ==> r.value.Obj? && r.value.fields.Keys == {"step"} && Get(r.value, "step").Obj?
  {
    match a.state
    case Ok(steps) =>
      (match PreSteps(steps, 0, map[])
       case Ok(entries) => Result.Ok(Obj(map["step" := Obj(entries)]))
       case Err(e) => Result.Err(e))
    case Fail(steps) => Result.Err(Error("020", "pre Fail : " + StepIdText(steps[|steps| - 1].id)))
    case Err(e) => Result.Err(Error("021", "pre Err  : " + errText(e)))
  }

  /** Every step of an Ok pre-case is reachable at `pre.step.<sid>.value` in
      the case contexts: its value, when no later step has the same id. */
  lemma PreCtxValues(a: CaseAssess, errText: Error -> string, k: nat)
    requires a.state.Ok? && k < |a.state.steps|
    requires PreCtx(a, errText).Ok?
    requires forall j | k < j < |a.state.steps| :: a.state.steps[j].id.step != a.state.steps[k].id.step
    ensures Fold(PreCtx(a, errText).value, ["step", a.state.steps[k].id.step, "value"]) == a.state.steps[k].state.value
  {
    var steps := a.state.steps;
    var entries := PreSteps(steps, 0, map[]).value;
    var ctx := PreCtx(a, errText).value;
    var sid := steps[k].id.step;
    PreStepsValue(steps, 0, map[], k);
    assert ["step", sid, "value"][1..] == [sid, "value"];
    FoldPair(Get(ctx, "step"), sid, "value");
  }

  /** The pre-stage part of a runner: its context, the pre-case's assessment
      and its actions, all absent when the flow has no pre-stage steps. */
  datatype PreParts<A> = PreParts(preCtx: Option<Json>, preAssess: Option<CaseAssess>, preStepVec: Option<seq<(string, A)>>)

  /** `TaskRunner::new` without the runner: create the pre-stage actions;
      with none there is no pre-stage; otherwise run the pre-case and build
      its context. Any error aborts. */
  function NewPre<A>(flow: Flow, id: TaskId, engine: Engine<A>): (r: Result<PreParts<A>, Error>)
  {
    var t := TaskEnv(flow, id, engine, None);
    var preIds := if flow.pre.Some? then flow.pre.value else [];
    match StepVecFrom(t, RenderContextCreate(flow, None), preIds, [])
    case Err(e) => Result.Err(e)
    case Ok(preStepVec) =>
      if preStepVec == [] then Result.Ok(PreParts(None, None, None))
      else
        var assess := engine.runCase(PreArg(flow, id, preStepVec));
        match PreCtx(assess, engine.errText)
        case Err(e) => Result.Err(e)
        case Ok(ctx) => Result.Ok(PreParts(Some(ctx), Some(assess), Some(preStepVec)))
  }

  /** A pre-stage exists exactly when the flow names pre-stage steps and all
      of them were created; its context is then the pre-case's context. */
  lemma NewPreShape<A>(flow: Flow, id: TaskId, engine: Engine<A>)
    ensures var r := NewPre(flow, id, engine);
            r.Ok? ==> (r.value.preCtx.Some? <==> flow.pre.Some? && flow.pre.value != [])
    ensures var r := NewPre(flow, id, engine);
            r.Ok? && r.value.preCtx.Some? ==>
              r.value.preAssess.Some? && r.value.preStepVec.Some? &&
              r.value.preAssess.value == engine.runCase(PreArg(flow, id, r.value.preStepVec.value)) &&
              PreCtx(r.value.preAssess.value, engine.errText) == Result.Ok(r.value.preCtx.value)
  {
  }
}
