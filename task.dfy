/** The task runner of the engine revision (`flow/src/flow/task/mod.rs`):
    an object that loads case data in batches, runs the cases of each batch
    with bounded concurrency, reports the assessments and keeps the stage
    and task states. Each method is proved to leave the runner in the state
    the functions of `TaskSpec` describe; `TaskProps` proves what those
    functions promise. */
module FlowTask {
  import opened Common
  import opened JsonValue
  import opened Chord
  import opened CaseArg
  import opened StepArg
  import opened TaskEnv
  import opened TaskSpec

  /** `step_vec_create`: the actions of the steps `ids`, created in order
      against the task context; the first factory error aborts. */
  method StepVecCreate<A>(t: TaskEnv<A>, ids: seq<string>) returns (r: Result<seq<(string, A)>, Error>)
    ensures r == StepVecFrom(t, RenderContextCreate(t.flow, t.preCtx), ids, [])
  {
    var context := RenderContextCreate(t.flow, t.preCtx);
    var actions: seq<(string, A)> := [];
    var i := 0;
    while i < |ids|
      invariant 0 <= i <= |ids|
      invariant StepVecFrom(t, context, ids, []) == StepVecFrom(t, context, ids[i..], actions)
    {
      assert ids[i..][1..] == ids[i + 1..];
      var created := t.engine.create(CreateArgFor(t, context, ids[i]));
      if created.Err? {
        return Result.Err(created.error);
      }
      actions := actions + [(ids[i], created.value)];
      i := i + 1;
    }
    return Result.Ok(actions);
  }

  /** `pre_ctx_create`: walks the pre-case's steps, recording each value
      under `step.<sid>.value`. */
  method PreCtxCreate(a: CaseAssess, errText: Error -> string) returns (r: Result<Json, Error>)
    requires a.state.Fail? ==> |a.state.steps| > 0
    ensures r == PreCtx(a, errText)
  {
    match a.state {
      case Ok(steps) =>
        var entries: map<string, Json> := map[];
        var i := 0;
        while i < |steps|
          invariant 0 <= i <= |steps|
          invariant forall s | s in entries :: entries[s].Obj?
          invariant PreSteps(steps, 0, map[]) == PreSteps(steps, i, entries)
        {
          match steps[i].state {
            case Ok(v) =>
              var sid := steps[i].id.step;
              var entry := if sid in entries then entries[sid] else Null;
              entries := entries[sid := SetMember(entry, "value", v)];
            case _ =>
              return Result.Err(Error("012", "pre step run failure"));
          }
          i := i + 1;
        }
        return Result.Ok(Obj(map["step" := Obj(entries)]));
      case Fail(steps) =>
        return Result.Err(Error("020", "pre Fail : " + StepIdText(steps[|steps| - 1].id)));
      case Err(e) =>
        return Result.Err(Error("021", "pre Err  : " + errText(e)));
    }
  }

  /** The batch width: `concurrency` cases at a time, one at a time for 0. */
  function Width(concurrency: nat): (w: nat)
    ensures w >= 1 && (concurrency > 0 ==> w == concurrency)
  {
    if concurrency == 0 then 1 else concurrency
  }

  function Sum(xs: seq<nat>): nat
  {
    if xs == [] then 0 else Sum(xs[..|xs| - 1]) + xs[|xs| - 1]
  }

  lemma SumSnoc(xs: seq<nat>, n: nat)
    ensures Sum(xs + [n]) == Sum(xs) + n
  {
    assert (xs + [n])[..|xs|] == xs;
  }

  /** The assessments of one joined group, in submission order. */
  function Joined<A>(run: CaseArgStruct<A> -> RanCaseAssess, futures: seq<CaseArgStruct<A>>): seq<CaseAssess>
  {
    seq(|futures|, k requires 0 <= k < |futures| => run(futures[k]))
  }

  /** Appending a joined group keeps the assessments in row order. */
  lemma JoinGroup<A>(run: CaseArgStruct<A> -> RanCaseAssess, args: seq<CaseArgStruct<A>>, r: seq<CaseAssess>, futures: seq<CaseArgStruct<A>>)
    requires |r| + |futures| <= |args| && futures == args[|r|..|r| + |futures|]
    requires forall k | 0 <= k < |r| :: r[k] == run(args[k])
    ensures |r + Joined(run, futures)| == |r| + |futures|
    ensures forall k | 0 <= k < |r| + |futures| :: (r + Joined(run, futures))[k] == run(args[k])
  {
  }

  /** The spawn-and-join loop of `case_data_vec_run`: a group is joined as
      soon as it holds `concurrency` cases, and what is left is joined at
      the end; the assessments come back in submission order. */
  method RunGroups<A>(run: CaseArgStruct<A> -> RanCaseAssess, args: seq<CaseArgStruct<A>>, concurrency: nat)
    returns (r: seq<CaseAssess>, ghost groups: seq<nat>)
    ensures |r| == |args| && forall k | 0 <= k < |args| :: r[k] == run(args[k])
    ensures Sum(groups) == |args|
    ensures forall g | 0 <= g < |groups| :: 1 <= groups[g] <= Width(concurrency)
    ensures forall g | 0 <= g < |groups| - 1 :: groups[g] == Width(concurrency)
  {
    r := [];
    groups := [];
    var futures: seq<CaseArgStruct<A>> := [];
    var i := 0;
    while i < |args|
      invariant 0 <= i <= |args|
      invariant |r| + |futures| == i && |futures| < Width(concurrency)
      invariant futures == args[|r|..i]
      invariant forall k | 0 <= k < |r| :: r[k] == run(args[k])
      invariant Sum(groups) == |r|
      invariant forall g | 0 <= g < |groups| :: groups[g] == Width(concurrency)
    {
      assert args[|r|..i + 1] == args[|r|..i] + [args[i]];
      futures := futures + [args[i]];
      if |futures| >= concurrency {
        JoinGroup(run, args, r, futures);
        SumSnoc(groups, |futures|);
        r := r + Joined(run, futures);
        groups := groups + [|futures|];
        futures := [];
      }
      i := i + 1;
    }
    if |futures| > 0 {
      JoinGroup(run, args, r, futures);
      SumSnoc(groups, |futures|);
      r := r + Joined(run, futures);
      groups := groups + [|futures|];
    }
  }

  class TaskRunner<A> {
    const flow: Flow
    const id: TaskId
    const engine: Engine<A>
    const preCtx: Option<Json>
    const preAssess: Option<CaseAssess>
    const preStepVec: Option<seq<(string, A)>>

    var stepVec: seq<(string, A)>
    var caseExecId: string
    var stageState: TaskState
    var taskState: TaskState
    var caseLoad: CaseLoad
    var assessReport: Reporter

    /** The parts of the runner that never change. */
    function Env(): (t: TaskEnv<A>)
      ensures t.flow == flow && t.id == id && t.engine == engine && t.preCtx == preCtx
    {
      TaskEnv(flow, id, engine, preCtx)
    }

    /** The fields the runner reassigns. */
    function Snapshot(): (m: Machine<A>)
      reads this
      ensures m.stepVec == stepVec && m.caseExecId == caseExecId
      ensures m.stageState == stageState && m.taskState == taskState
      ensures m.load == caseLoad && m.report == assessReport
    {
      Machine(stepVec, caseExecId, stageState, taskState, caseLoad, assessReport)
    }

    /** A fresh runner: no actions, an empty round tag, both states Ok. */
    constructor (flow: Flow, id: TaskId, engine: Engine<A>, parts: PreParts<A>, load: CaseLoad, report: Reporter)
      ensures this.flow == flow && this.id == id && this.engine == engine
      ensures preCtx == parts.preCtx && preAssess == parts.preAssess && preStepVec == parts.preStepVec
      ensures Snapshot() == Machine([], "", TaskState.Ok, TaskState.Ok, load, report)
    {
      this.flow := flow;
      this.id := id;
      this.engine := engine;
      preCtx := parts.preCtx;
      preAssess := parts.preAssess;
      preStepVec := parts.preStepVec;
      stepVec := [];
      caseExecId := "";
      stageState := TaskState.Ok;
      taskState := TaskState.Ok;
      caseLoad := load;
      assessReport := report;
    }

    /** `TaskRunner::new`: creates the pre-stage actions; when there are
        any, runs the pre-case and builds the pre-stage context from it. */
    static method New(flow: Flow, id: TaskId, engine: Engine<A>, load: CaseLoad, report: Reporter)
      returns (r: Result<TaskRunner<A>, Error>)
      ensures r.Err? ==> NewPre(flow, id, engine) == Result.Err(r.error)
      ensures r.Ok? ==> NewPre(flow, id, engine) == Result.Ok(PreParts(r.value.preCtx, r.value.preAssess, r.value.preStepVec))
      ensures r.Ok? ==> fresh(r.value) && r.value.flow == flow && r.value.id == id && r.value.engine == engine
      ensures r.Ok? ==> r.value.Snapshot() == Machine([], "", TaskState.Ok, TaskState.Ok, load, report)
    {
      var t := TaskEnv(flow, id, engine, None);
      var preIds := if flow.pre.Some? then flow.pre.value else [];
      var created := StepVecCreate(t, preIds);
      if created.Err? {
        return Result.Err(created.error);
      }
      var actions := created.value;
      if actions == [] {
        var runner := new TaskRunner(flow, id, engine, PreParts(None, None, None), load, report);
        return Result.Ok(runner);
      }
      var assess := engine.runCase(PreArg(flow, id, actions));
      var ctx := PreCtxCreate(assess, engine.errText);
      if ctx.Err? {
        return Result.Err(ctx.error);
      }
      var runner := new TaskRunner(flow, id, engine, PreParts(Some(ctx.value), Some(assess), Some(actions)), load, report);
      return Result.Ok(runner);
    }

    /** `run`: reports the start, runs the stages and reports the final
        assessment, which is Err when a stage erred and the task state
        otherwise. */
    method Run() returns (r: Result<TaskAssess, Error>)
      requires StagesDeclared(flow)
      modifies this
      ensures (r, Snapshot()) == TaskSpec.Run(Env(), old(Snapshot()))
    {
      var started := Call(assessReport, Start);
      assessReport := started.1;
      if started.0.Some? {
        return Result.Err(started.0.value);
      }
      var result := StartRun();
      var assess := FinalAssess(id, result, taskState);
      var ended := Call(assessReport, End(assess));
      assessReport := ended.1;
      if ended.0.Some? {
        return Result.Err(ended.0.value);
      }
      return Result.Ok(assess);
    }

    /** `start_run`: the stages in the flow's order, stopping at the first
        error and after a failed stage whose break policy is "stage_fail". */
    method StartRun() returns (r: Result<(), Error>)
      requires StagesDeclared(flow)
      modifies this
      ensures (r, Snapshot()) == TaskSpec.StartRun(Env(), old(Snapshot()), flow.stageIds)
    {
      var ids := flow.stageIds;
      var i := 0;
      ghost var t := Env();
      ghost var goal := TaskSpec.StartRun(t, Snapshot(), ids);
      while i < |ids|
        invariant 0 <= i <= |ids|
        invariant goal == TaskSpec.StartRun(t, Snapshot(), ids[i..])
      {
        var stageId := ids[i];
        ghost var m := Snapshot();
        ghost var rest := ids[i..];
        assert rest[0] == stageId && rest[1..] == ids[i + 1..];
        var stageResult := StageRun(stageId);
        if stageResult.Err? {
          assert goal == (stageResult, Snapshot());
          return stageResult;
        }
        if stageState == TaskState.Fail && flow.stages[stageId].breakOn == "stage_fail" {
          assert goal == (Result.Ok(()), Snapshot());
          return Result.Ok(());
        }
        assert goal == TaskSpec.StartRun(t, Snapshot(), ids[i + 1..]);
        i := i + 1;
      }
      return Result.Ok(());
    }

    /** `stage_run`: resets the stage state, creates the stage's actions
        against the task context and runs the rounds. */
    method StageRun(stageId: string) returns (r: Result<(), Error>)
      requires stageId in flow.stages
      modifies this
      ensures (r, Snapshot()) == TaskSpec.StageRun(Env(), old(Snapshot()), stageId)
    {
      stageState := TaskState.Ok;
      var created := StepVecCreate(Env(), flow.stages[stageId].steps);
      if created.Err? {
        return Result.Err(created.error);
      }
      stepVec := created.value;
      var outcome := StageRoundRun(stageId);
      if outcome.Failed? {
        return Result.Err(outcome.error);
      }
      return Result.Ok(());
    }

    /** `stage_round_run`: rounds of batches under the tags
        "{stage}_1", "{stage}_2", …, each followed by a loader reset. */
    method StageRoundRun(stageId: string) returns (outcome: Outcome)
      requires stageId in flow.stages
      modifies this
      ensures (outcome, Snapshot()) == RoundRun(Env(), old(Snapshot()), stageId, flow.stages[stageId].concurrency, flow.stages[stageId].round, 0)
    {
      var concurrency := flow.stages[stageId].concurrency;
      var roundMax := flow.stages[stageId].round;
      var roundCount := 0;
      ghost var goal := RoundRun(Env(), Snapshot(), stageId, concurrency, roundMax, 0);
      while true
        invariant roundCount == 0 || roundCount < roundMax
        invariant goal == RoundRun(Env(), Snapshot(), stageId, concurrency, roundMax, roundCount)
        decreases roundMax - roundCount
      {
        var stop;
        outcome, stop := RoundOnce(stageId, concurrency, roundMax, roundCount);
        if stop {
          return;
        }
        roundCount := roundCount + 1;
      }
    }

    /** One round of `stage_round_run`: tag it, run its batches, reset the
        loader; `stop` tells whether the loop ends with `outcome`. */
    method RoundOnce(stageId: string, concurrency: nat, roundMax: nat, roundCount: nat) returns (outcome: Outcome, stop: bool)
      requires stageId in flow.stages
      requires roundCount == 0 || roundCount < roundMax
      modifies this
      ensures stop ==> (outcome, Snapshot()) == RoundRun(Env(), old(Snapshot()), stageId, concurrency, roundMax, roundCount)
      ensures !stop ==> roundCount + 1 < roundMax
      ensures !stop ==>
        RoundRun(Env(), old(Snapshot()), stageId, concurrency, roundMax, roundCount)
        == RoundRun(Env(), Snapshot(), stageId, concurrency, roundMax, roundCount + 1)
    {
      ghost var t := Env();
      ghost var goal := RoundRun(t, Snapshot(), stageId, concurrency, roundMax, roundCount);
      ghost var m := Snapshot();
      caseExecId := RoundTag(stageId, roundCount + 1);
      assert Snapshot() == m.(caseExecId := RoundTag(stageId, roundCount + 1));
      outcome := StageDataVecRunRemaining(stageId, concurrency);
      ghost var m2 := Snapshot();
      if !outcome.Done? {
        assert goal == (outcome, m2);
        return outcome, true;
      }
      var reset := ResetLoad(caseLoad);
      caseLoad := reset.1;
      assert Snapshot() == m2.(load := reset.1);
      if reset.0.Some? {
        assert goal == (Failed(reset.0.value), Snapshot());
        return Failed(reset.0.value), true;
      }
      if roundCount + 1 >= roundMax {
        assert goal == (Done, Snapshot());
        return Done, true;
      }
      assert goal == RoundRun(t, Snapshot(), stageId, concurrency, roundMax, roundCount + 1);
      return outcome, false;
    }

    /** `stage_data_vec_run_remaining`: load, run and report batches until
        a load brings no rows; a round whose first load is empty is the
        error "011". The stage timer is looked at before every load. */
    method StageDataVecRunRemaining(stageId: string, concurrency: nat) returns (outcome: Outcome)
      requires stageId in flow.stages
      modifies this
      ensures (outcome, Snapshot()) == RunRemaining(Env(), old(Snapshot()), stageId, concurrency, 0)
    {
      var loadTimes := 0;
      ghost var t := Env();
      ghost var goal := RunRemaining(t, Snapshot(), stageId, concurrency, 0);
      while true
        invariant goal == RunRemaining(t, Snapshot(), stageId, concurrency, loadTimes)
        decreases |caseLoad.pages|
      {
        ghost var m := Snapshot();
        if engine.elapsed(stageId, |caseLoad.log|) {
          assert goal == (Elapsed, m);
          return Elapsed;
        }
        var loaded := StageDataVecLoad(stageId, concurrency);
        ghost var m1 := Snapshot();
        assert (loaded, m1.load) == StageLoad(t, m.load, stageId, concurrency);
        assert m1 == m.(load := m1.load);
        loadTimes := loadTimes + 1;
        if loaded.Err? {
          assert goal == (Failed(loaded.error), m1);
          return Failed(loaded.error);
        }
        var rows := loaded.value;
        if |rows| == 0 {
          if loadTimes == 1 {
            assert goal == (Failed(Error("011", "no case provided")), m1);
            return Failed(Error("011", "no case provided"));
          } else {
            assert goal == (Done, m1);
            return Done;
          }
        }
        ghost var groups;
        var batch;
        batch, groups := CaseDataVecRun(rows, concurrency);
        assert batch == RunRows(t, m1.stepVec, m1.caseExecId, rows);
        if AnyFail(batch) {
          stageState := TaskState.Fail;
          taskState := TaskState.Fail;
        }
        ghost var m2 := Snapshot();
        assert m2 == if AnyFail(batch) then m1.(stageState := TaskState.Fail, taskState := TaskState.Fail) else m1;
        var reported := Call(assessReport, Report(stageId, batch));
        assessReport := reported.1;
        assert Snapshot() == m2.(report := reported.1);
        if reported.0.Some? {
          assert goal == (Failed(reported.0.value), Snapshot());
          return Failed(reported.0.value);
        }
      }
    }

    /** `stage_data_vec_load`: with a case filter, pulls pages and keeps the
        rows the filter accepts until `size` rows are kept or a page is
        empty; without one, a single load of `size` rows. */
    method StageDataVecLoad(stageId: string, size: nat) returns (r: Result<seq<Row>, Error>)
      requires stageId in flow.stages
      modifies this
      ensures (r, caseLoad) == StageLoad(Env(), old(caseLoad), stageId, size)
      ensures Snapshot() == old(Snapshot()).(load := caseLoad)
    {
      match flow.stages[stageId].caseFilter {
        case None =>
          var page := Pull(caseLoad, size);
          caseLoad := page.1;
          return page.0;
        case Some(filter) =>
          var ccdv: seq<Row> := [];
          while true
            invariant |ccdv| <= size
            invariant FilteredLoad(Env(), filter, old(caseLoad), size, []) == FilteredLoad(Env(), filter, caseLoad, size, ccdv)
            invariant Snapshot() == old(Snapshot()).(load := caseLoad)
            decreases |caseLoad.pages|
          {
            var page := Pull(caseLoad, size - |ccdv|);
            caseLoad := page.1;
            if page.0.Err? {
              return Result.Err(page.0.error);
            }
            var cdv := page.0.value;
            if |cdv| == 0 {
              break;
            }
            ccdv := KeepFiltered(filter, cdv, ccdv);
            if |ccdv| >= size {
              break;
            }
          }
          return Result.Ok(ccdv);
      }
    }

    /** The page loop of `stage_data_vec_load`: appends to `kept` the rows
        of `page` whose filter context the case filter accepts. */
    method KeepFiltered(filter: string, page: seq<Row>, kept: seq<Row>) returns (r: seq<Row>)
      ensures r == kept + FilterRows(Env(), filter, page)
    {
      r := kept;
      var j := 0;
      while j < |page|
        invariant 0 <= j <= |page|
        invariant r == kept + FilterRows(Env(), filter, page[..j])
      {
        assert page[..j + 1][..j] == page[..j];
        var ctx := FilterContext(flow, preCtx, page[j].1);
        if engine.filter(ctx, filter) {
          r := r + [page[j]];
        }
        j := j + 1;
      }
      assert page[..|page|] == page;
    }

    /** `case_arg_vec`: one case per row, in row order, named by the row's
        id, on the row's data, with the runner's current actions, round tag
        and pre-stage context. */
    function CaseArgVec(rows: seq<Row>): (r: seq<CaseArgStruct<A>>)
      reads this
      ensures |r| == |rows|
      ensures forall k | 0 <= k < |rows| ::
        r[k].id == CaseId(id, caseExecId, rows[k].0) && r[k].data == rows[k].1 &&
        r[k].stepVec == stepVec && r[k].preCtx == preCtx && r[k].flow == flow
    {
      seq(|rows|, k requires 0 <= k < |rows| reads this => NewCaseArg(flow, stepVec, rows[k].1, preCtx, id, rows[k].0, caseExecId))
    }

    /** `case_data_vec_run`: runs the cases of a batch in groups of
        `concurrency` (one at a time for 0), each group joined before the
        next starts; the assessments come back in row order. `groups` are
        the sizes of the groups joined. */
    method CaseDataVecRun(rows: seq<Row>, concurrency: nat) returns (r: seq<CaseAssess>, ghost groups: seq<nat>)
      ensures r == RunRows(Env(), stepVec, caseExecId, rows)
      ensures Sum(groups) == |rows|
      ensures forall g | 0 <= g < |groups| :: 1 <= groups[g] <= Width(concurrency)
      ensures forall g | 0 <= g < |groups| - 1 :: groups[g] == Width(concurrency)
    {
      var args := CaseArgVec(rows);
      r, groups := RunGroups(engine.runCase, args, concurrency);
      forall k | 0 <= k < |rows|
        ensures r[k] == RunRows(Env(), stepVec, caseExecId, rows)[k]
      {
        assert args[k] == NewCaseArg(flow, stepVec, rows[k].1, preCtx, id, rows[k].0, caseExecId);
      }
    }
  }
}
