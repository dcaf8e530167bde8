/** Properties of the task runner of the engine revision, proved about its
    specification: what each level of the run adds to the reporter's and the
    loader's logs, how the stage and task states follow the reported
    batches, how many rounds a stage runs, and how the filtered load stops. */
module TaskProps {
  import opened Common
  import opened JsonValue
  import opened Chord
  import opened TaskEnv
  import opened TaskSpec

  /** Some reported batch holds a case that is not Ok. */
  predicate FailSeen(calls: seq<ReportCall>)
  {
    exists k | 0 <= k < |calls| :: calls[k].Report? && AnyFail(calls[k].batch)
  }

  /** The state after the reports `calls`: Fail once a failing batch was
      reported, otherwise unchanged. */
  function Mark(s: TaskState, calls: seq<ReportCall>): (r: TaskState)
    ensures FailSeen(calls) ==> r == TaskState.Fail
    ensures !FailSeen(calls) ==> r == s
  {
    if FailSeen(calls) then TaskState.Fail else s
  }

  lemma FailSeenConcat(a: seq<ReportCall>, b: seq<ReportCall>)
    ensures FailSeen(a + b) <==> FailSeen(a) || FailSeen(b)
  {
    if FailSeen(a + b) {
      var k :| 0 <= k < |a + b| && (a + b)[k].Report? && AnyFail((a + b)[k].batch);
      if k < |a| {
        assert a[k] == (a + b)[k];
      } else {
        assert b[k - |a|] == (a + b)[k];
      }
    }
    if FailSeen(a) {
      var k :| 0 <= k < |a| && a[k].Report? && AnyFail(a[k].batch);
      assert (a + b)[k] == a[k];
    }
    if FailSeen(b) {
      var k :| 0 <= k < |b| && b[k].Report? && AnyFail(b[k].batch);
      assert (a + b)[|a| + k] == b[k];
    }
  }

  /** Marking after two runs of reports is marking after both. */
  lemma MarkConcat(s: TaskState, a: seq<ReportCall>, b: seq<ReportCall>)
    ensures Mark(Mark(s, a), b) == Mark(s, a + b)
  {
    FailSeenConcat(a, b);
  }

  /** Every call in `calls` reports a non-empty batch of stage `stageId`. */
  predicate BatchesOf(calls: seq<ReportCall>, stageId: string)
  {
    forall k | 0 <= k < |calls| :: calls[k].Report? && calls[k].stageId == stageId && calls[k].batch != []
  }

  /** Every call in `calls` reports a non-empty batch of one of `stageIds`. */
  predicate BatchesAmong(calls: seq<ReportCall>, stageIds: seq<string>)
  {
    forall k | 0 <= k < |calls| :: calls[k].Report? && calls[k].stageId in stageIds && calls[k].batch != []
  }

  /** The reports `m2` added to those of `m1`. */
  function NewReports<A>(m1: Machine<A>, m2: Machine<A>): seq<ReportCall>
    requires Extends(m2.report.log, m1.report.log)
  {
    m2.report.log[|m1.report.log|..]
  }

  /** The loader calls `m2` added to those of `m1`. */
  function NewLoads<A>(m1: Machine<A>, m2: Machine<A>): seq<LoadCall>
    requires Extends(m2.load.log, m1.load.log)
  {
    m2.load.log[|m1.load.log|..]
  }

  lemma ExtendsTrans<T>(a: seq<T>, b: seq<T>, c: seq<T>)
    requires Extends(b, a) && Extends(c, b)
    ensures Extends(c, a)
    ensures c[|a|..] == b[|a|..] + c[|b|..]
  {
    assert c[..|a|] == c[..|b|][..|a|];
    assert c[|a|..|b|] == b[|a|..];
    assert c[|a|..] == c[|a|..|b|] + c[|b|..];
  }

  /** What `m2` reported since `m1`: only non-empty batches of stage
      `stageId`, and the stage and task states are Fail exactly when they
      were before or one of those batches had a case that was not Ok. */
  predicate Reported<A>(m1: Machine<A>, m2: Machine<A>, stageId: string)
  {
    Extends(m2.report.log, m1.report.log) &&
    BatchesOf(NewReports(m1, m2), stageId) &&
    m2.stageState == Mark(m1.stageState, NewReports(m1, m2)) &&
    m2.taskState == Mark(m1.taskState, NewReports(m1, m2))
  }

  lemma ReportedTrans<A>(m1: Machine<A>, m2: Machine<A>, m3: Machine<A>, stageId: string)
    requires Reported(m1, m2, stageId) && Reported(m2, m3, stageId)
    ensures Reported(m1, m3, stageId)
    ensures NewReports(m1, m3) == NewReports(m1, m2) + NewReports(m2, m3)
  {
    ExtendsTrans(m1.report.log, m2.report.log, m3.report.log);
    var a: seq<ReportCall>, b: seq<ReportCall> := NewReports(m1, m2), NewReports(m2, m3);
    MarkConcat(m1.stageState, a, b);
    MarkConcat(m1.taskState, a, b);
    forall k | 0 <= k < |a + b|
      ensures (a + b)[k].Report? && (a + b)[k].stageId == stageId && (a + b)[k].batch != []
    {
      if k < |a| { assert (a + b)[k] == a[k]; } else { assert (a + b)[k] == b[k - |a|]; }
    }
  }

  /** `m2` made only loads on the loader since `m1`. */
  predicate LoadsOnly<A>(m1: Machine<A>, m2: Machine<A>)
  {
    Extends(m2.load.log, m1.load.log) && OnlyLoads(NewLoads(m1, m2))
  }

  lemma LoadsOnlyTrans<A>(m1: Machine<A>, m2: Machine<A>, m3: Machine<A>)
    requires LoadsOnly(m1, m2) && LoadsOnly(m2, m3)
    ensures LoadsOnly(m1, m3)
  {
    ExtendsTrans(m1.load.log, m2.load.log, m3.load.log);
    var a: seq<LoadCall>, b: seq<LoadCall> := NewLoads(m1, m2), NewLoads(m2, m3);
    forall k | 0 <= k < |a + b| ensures (a + b)[k].Load? {
      if k < |a| { assert (a + b)[k] == a[k]; } else { assert (a + b)[k] == b[k - |a|]; }
    }
  }

  /** One batch: running the loaded rows and reporting them. */
  lemma BatchReported<A>(m1: Machine<A>, stageId: string, batch: seq<CaseAssess>, m3: Machine<A>)
    requires batch != []
    requires var m2 := if AnyFail(batch) then m1.(stageState := TaskState.Fail, taskState := TaskState.Fail) else m1;
             m3 == m2.(report := Call(m2.report, Report(stageId, batch)).1)
    ensures Reported(m1, m3, stageId) && m3.load == m1.load
    ensures m3.caseExecId == m1.caseExecId && m3.stepVec == m1.stepVec
  {
    var here := [Report(stageId, batch)];
    assert NewReports(m1, m3) == here;
    assert FailSeen(here) <==> AnyFail(batch) by {
      assert here[0].Report? && here[0].batch == batch;
    }
  }

  /** The remaining loop of a round: one report per batch, tagged with the
      stage, with the stage and task states following the batches; the
      loader sees only loads; the round tag and the actions stay. */
  lemma {:induction false} RunRemainingEffects<A>(t: TaskEnv<A>, m: Machine<A>, stageId: string, concurrency: nat, loadTimes: nat)
    requires stageId in t.flow.stages
    ensures var m' := RunRemaining(t, m, stageId, concurrency, loadTimes).1;
            Reported(m, m', stageId) && LoadsOnly(m, m') &&
            m'.caseExecId == m.caseExecId && m'.stepVec == m.stepVec
    decreases |m.load.pages|
  {
    var m' := RunRemaining(t, m, stageId, concurrency, loadTimes).1;
    if t.engine.elapsed(stageId, |m.load.log|) {
      assert NewReports(m, m') == [] && NewLoads(m, m') == [];
    } else {
      var (loaded, load1) := StageLoad(t, m.load, stageId, concurrency);
      var m1 := m.(load := load1);
      assert NewReports(m, m1) == [];
      assert Reported(m, m1, stageId) && LoadsOnly(m, m1);
      if loaded.Ok? && loaded.value != [] {
        var batch := RunRows(t, m1.stepVec, m1.caseExecId, loaded.value);
        var m2 := if AnyFail(batch) then m1.(stageState := TaskState.Fail, taskState := TaskState.Fail) else m1;
        var (failure, report3) := Call(m2.report, Report(stageId, batch));
        var m3 := m2.(report := report3);
        BatchReported(m1, stageId, batch, m3);
        ReportedTrans(m, m1, m3, stageId);
        assert NewLoads(m1, m3) == [];
        LoadsOnlyTrans(m, m1, m3);
        if failure.None? {
          assert m' == RunRemaining(t, m3, stageId, concurrency, loadTimes + 1).1;
          RunRemainingEffects(t, m3, stageId, concurrency, loadTimes + 1);
          ReportedTrans(m, m3, m', stageId);
          LoadsOnlyTrans(m, m3, m');
        }
      }
    }
  }

  /** The number of resets among the loader calls. */
  function CountResets(calls: seq<LoadCall>): (n: nat)
    ensures n <= |calls|
  {
    if calls == [] then 0 else (if calls[0].Reset? then 1 else 0) + CountResets(calls[1..])
  }

  lemma {:induction false} CountResetsConcat(a: seq<LoadCall>, b: seq<LoadCall>)
    ensures CountResets(a + b) == CountResets(a) + CountResets(b)
    decreases |a|
  {
    if a != [] {
      assert (a + b)[0] == a[0];
      assert (a + b)[1..] == a[1..] + b;
      CountResetsConcat(a[1..], b);
    } else {
      assert a + b == b;
    }
  }

  lemma {:induction false} OnlyLoadsNoResets(calls: seq<LoadCall>)
    requires OnlyLoads(calls)
    ensures CountResets(calls) == 0
    decreases |calls|
  {
    if calls != [] {
      assert calls[0].Load?;
      OnlyLoadsNoResets(calls[1..]);
    }
  }

  /** The number of rounds a round loop still runs from `roundCount` on:
      up to `roundMax`, and at least one. */
  function Rounds(roundMax: nat, roundCount: nat): (n: nat)
    ensures n >= 1
  {
    if roundMax > roundCount then roundMax - roundCount else 1
  }

  /** Resets counted over two stretches of the loader's log. */
  lemma ResetsTrans<A>(m1: Machine<A>, m2: Machine<A>, m3: Machine<A>)
    requires Extends(m2.load.log, m1.load.log) && Extends(m3.load.log, m2.load.log)
    ensures Extends(m3.load.log, m1.load.log)
    ensures CountResets(NewLoads(m1, m3)) == CountResets(NewLoads(m1, m2)) + CountResets(NewLoads(m2, m3))
  {
    ExtendsTrans(m1.load.log, m2.load.log, m3.load.log);
    CountResetsConcat(NewLoads(m1, m2), NewLoads(m2, m3));
  }

  /** The machine after the batches of round `roundCount + 1`. */
  function RoundBatches<A>(t: TaskEnv<A>, m: Machine<A>, stageId: string, concurrency: nat, roundCount: nat)
    : (res: (Outcome, Machine<A>))
    requires stageId in t.flow.stages
  {
    RunRemaining(t, m.(caseExecId := RoundTag(stageId, roundCount + 1)), stageId, concurrency, 0)
  }

  /** One round's batches: reported, under the round's tag, with no reset. */
  lemma RoundBatchesEffects<A>(t: TaskEnv<A>, m: Machine<A>, stageId: string, concurrency: nat, roundCount: nat)
    requires stageId in t.flow.stages
    ensures var m2 := RoundBatches(t, m, stageId, concurrency, roundCount).1;
            Reported(m, m2, stageId) && Extends(m2.load.log, m.load.log) &&
            CountResets(NewLoads(m, m2)) == 0 &&
            m2.caseExecId == RoundTag(stageId, roundCount + 1) && m2.stepVec == m.stepVec
  {
    var m1 := m.(caseExecId := RoundTag(stageId, roundCount + 1));
    var m2 := RoundBatches(t, m, stageId, concurrency, roundCount).1;
    RunRemainingEffects(t, m1, stageId, concurrency, 0);
    OnlyLoadsNoResets(NewLoads(m1, m2));
    assert NewReports(m, m2) == NewReports(m1, m2);
    assert NewLoads(m, m2) == NewLoads(m1, m2);
  }

  /** The reset that ends a round. */
  lemma RoundResetEffects<A>(m: Machine<A>, m2: Machine<A>, stageId: string, m3: Machine<A>)
    requires Reported(m, m2, stageId) && Extends(m2.load.log, m.load.log)
    requires m3 == m2.(load := ResetLoad(m2.load).1)
    ensures Reported(m, m3, stageId) && Extends(m3.load.log, m.load.log)
    ensures CountResets(NewLoads(m, m3)) == CountResets(NewLoads(m, m2)) + 1
    ensures m3.caseExecId == m2.caseExecId && m3.stepVec == m2.stepVec
  {
    assert NewLoads(m2, m3) == [Reset];
    assert CountResets([Reset]) == 1;
    ResetsTrans(m, m2, m3);
    assert NewReports(m2, m3) == [];
    ReportedTrans(m, m2, m3, stageId);
  }

  /** What a round loop from `m` to `m'` leaves behind: the report and
      state facts of each round, at most one reset per round, and, when it
      ends normally, exactly one reset per round and the last round's tag. */
  ghost predicate RoundEffects<A>(m: Machine<A>, outcome: Outcome, m': Machine<A>, stageId: string, roundMax: nat, roundCount: nat)
  {
    Reported(m, m', stageId) &&
    Extends(m'.load.log, m.load.log) &&
    m'.stepVec == m.stepVec &&
    CountResets(NewLoads(m, m')) <= Rounds(roundMax, roundCount) &&
    (outcome.Done? ==>
       CountResets(NewLoads(m, m')) == Rounds(roundMax, roundCount) &&
       m'.caseExecId == RoundTag(stageId, roundCount + Rounds(roundMax, roundCount)))
  }

  /** The round loop: a loop that ends normally has reset the loader once
      per round, ran `Rounds` rounds, and left the last round's tag; the
      report and state facts of each round carry over. */
  lemma {:induction false} RoundRunEffects<A>(t: TaskEnv<A>, m: Machine<A>, stageId: string, concurrency: nat, roundMax: nat, roundCount: nat)
    requires stageId in t.flow.stages
    requires roundCount == 0 || roundCount < roundMax
    ensures var res := RoundRun(t, m, stageId, concurrency, roundMax, roundCount);
            RoundEffects(m, res.0, res.1, stageId, roundMax, roundCount)
    decreases roundMax - roundCount
  {
    var (outcome, m2) := RoundBatches(t, m, stageId, concurrency, roundCount);
    RoundBatchesEffects(t, m, stageId, concurrency, roundCount);
    if outcome.Done? {
      var (failure, load3) := ResetLoad(m2.load);
      var m3 := m2.(load := load3);
      RoundResetEffects(m, m2, stageId, m3);
      if failure.None? && roundCount + 1 < roundMax {
        RoundRunEffects(t, m3, stageId, concurrency, roundMax, roundCount + 1);
        var res := RoundRun(t, m3, stageId, concurrency, roundMax, roundCount + 1);
        ChainRound(m, m3, res.0, res.1, stageId, roundMax, roundCount);
        assert RoundRun(t, m, stageId, concurrency, roundMax, roundCount) == res;
      } else {
        assert RoundRun(t, m, stageId, concurrency, roundMax, roundCount).1 == m3;
      }
    } else {
      assert RoundRun(t, m, stageId, concurrency, roundMax, roundCount) == (outcome, m2);
    }
  }

  /** A round that ended normally and reset the loader once, followed by
      the rest of the loop, is one round more of the loop. */
  lemma ChainRound<A>(m: Machine<A>, m3: Machine<A>, outcome: Outcome, m': Machine<A>, stageId: string, roundMax: nat, roundCount: nat)
    requires roundCount + 1 < roundMax
    requires Reported(m, m3, stageId) && Extends(m3.load.log, m.load.log) && m3.stepVec == m.stepVec
    requires CountResets(NewLoads(m, m3)) == 1
    requires RoundEffects(m3, outcome, m', stageId, roundMax, roundCount + 1)
    ensures RoundEffects(m, outcome, m', stageId, roundMax, roundCount)
  {
    ReportedTrans(m, m3, m', stageId);
    ResetsTrans(m, m3, m');
    assert Rounds(roundMax, roundCount) == Rounds(roundMax, roundCount + 1) + 1;
  }

  /** A stage: its state starts Ok and ends Fail exactly when one of its
      reported batches had a case that was not Ok; the task state follows
      the same batches. */
  lemma StageRunEffects<A>(t: TaskEnv<A>, m: Machine<A>, stageId: string)
    requires stageId in t.flow.stages
    ensures var m' := StageRun(t, m, stageId).1;
            Extends(m'.report.log, m.report.log) &&
            BatchesOf(NewReports(m, m'), stageId) &&
            m'.stageState == Mark(TaskState.Ok, NewReports(m, m')) &&
            m'.taskState == Mark(m.taskState, NewReports(m, m'))
  {
    var m0 := m.(stageState := TaskState.Ok);
    var conf := t.flow.stages[stageId];
    var created := StepVecFrom(t, RenderContextCreate(t.flow, t.preCtx), conf.steps, []);
    if created.Ok? {
      var m1 := m0.(stepVec := created.value);
      RoundRunEffects(t, m1, stageId, conf.concurrency, conf.round, 0);
      var m' := RoundRun(t, m1, stageId, conf.concurrency, conf.round, 0).1;
      assert NewReports(m, m') == NewReports(m1, m');
    } else {
      assert NewReports(m, m0) == [];
    }
  }

  /** The stages in turn: the task state is Fail afterwards exactly when it
      was before or some reported batch of the run stages had a case that
      was not Ok; every report names one of the stages. */
  lemma {:induction false} StartRunEffects<A>(t: TaskEnv<A>, m: Machine<A>, stageIds: seq<string>)
    requires forall s | s in stageIds :: s in t.flow.stages
    ensures var m' := StartRun(t, m, stageIds).1;
            Extends(m'.report.log, m.report.log) &&
            BatchesAmong(NewReports(m, m'), stageIds) &&
            m'.taskState == Mark(m.taskState, NewReports(m, m'))
    decreases |stageIds|
  {
    if stageIds != [] {
      var s := stageIds[0];
      StageRunEffects(t, m, s);
      var (r, m1) := StageRun(t, m, s);
      FirstStageAmong(NewReports(m, m1), stageIds);
      if !(r.Err? || (m1.stageState == TaskState.Fail && t.flow.stages[s].breakOn == "stage_fail")) {
        var rest := stageIds[1..];
        StartRunEffects(t, m1, rest);
        var m' := StartRun(t, m1, rest).1;
        assert StartRun(t, m, stageIds).1 == m';
        ChainStage(m, m1, m', stageIds);
      }
    }
  }

  /** The batches of the first stage are batches of the stages listed. */
  lemma FirstStageAmong(a: seq<ReportCall>, stageIds: seq<string>)
    requires stageIds != [] && BatchesOf(a, stageIds[0])
    ensures BatchesAmong(a, stageIds)
  {
    forall k | 0 <= k < |a| ensures a[k].Report? && a[k].stageId in stageIds && a[k].batch != [] {
      assert a[k].stageId == stageIds[0];
    }
  }

  /** The first stage followed by the remaining ones. */
  lemma ChainStage<A>(m: Machine<A>, m1: Machine<A>, m': Machine<A>, stageIds: seq<string>)
    requires stageIds != []
    requires Extends(m1.report.log, m.report.log) && BatchesAmong(NewReports(m, m1), stageIds)
    requires m1.taskState == Mark(m.taskState, NewReports(m, m1))
    requires Extends(m'.report.log, m1.report.log) && BatchesAmong(NewReports(m1, m'), stageIds[1..])
    requires m'.taskState == Mark(m1.taskState, NewReports(m1, m'))
    ensures Extends(m'.report.log, m.report.log)
    ensures BatchesAmong(NewReports(m, m'), stageIds)
    ensures m'.taskState == Mark(m.taskState, NewReports(m, m'))
  {
    ExtendsTrans(m.report.log, m1.report.log, m'.report.log);
    var a, b := NewReports(m, m1), NewReports(m1, m');
    assert NewReports(m, m') == a + b;
    MarkConcat(m.taskState, a, b);
    BatchesAmongConcat(a, b, stageIds);
  }

  /** The batches of the first stage, then those of the later stages, are
      batches of the stages. */
  lemma BatchesAmongConcat(a: seq<ReportCall>, b: seq<ReportCall>, stageIds: seq<string>)
    requires stageIds != []
    requires BatchesAmong(a, stageIds) && BatchesAmong(b, stageIds[1..])
    ensures BatchesAmong(a + b, stageIds)
  {
    forall k | 0 <= k < |a + b| ensures (a + b)[k].Report? && (a + b)[k].stageId in stageIds && (a + b)[k].batch != [] {
      if k < |a| {
        assert (a + b)[k] == a[k];
      } else {
        assert (a + b)[k] == b[k - |a|];
        assert b[k - |a|].stageId in stageIds[1..];
      }
    }
  }

  /** A whole run: the reporter hears the start first, then only batches of
      the flow's stages, and, when it gets that far, the final assessment
      last; that assessment is Fail exactly when some reported batch had a
      case that was not Ok (for a runner starting Ok), unless a stage ended
      the run with an error. */
  lemma RunReports<A>(t: TaskEnv<A>, m: Machine<A>)
    requires StagesDeclared(t.flow)
    requires m.taskState == TaskState.Ok
    ensures var (r, m') := Run(t, m);
            Extends(m'.report.log, m.report.log + [Start]) &&
            (r.Ok? ==>
               |m'.report.log| >= |m.report.log| + 2 &&
               m'.report.log[|m'.report.log| - 1] == End(r.value) &&
               r.value.id == t.id &&
               var batches := m'.report.log[|m.report.log| + 1..|m'.report.log| - 1];
               BatchesAmong(batches, t.flow.stageIds) &&
               (!r.value.state.Err? ==> (r.value.state == TaskState.Fail <==> FailSeen(batches))))
  {
    var (startFailure, report1) := Call(m.report, Start);
    var m1 := m.(report := report1);
    if startFailure.None? {
      StartRunEffects(t, m1, t.flow.stageIds);
      var (started, m2) := StartRun(t, m1, t.flow.stageIds);
      var assess := FinalAssess(t.id, started, m2.taskState);
      var (endFailure, report3) := Call(m2.report, End(assess));
      var m3 := m2.(report := report3);
      ExtendsTrans(m.report.log + [Start], m2.report.log, m3.report.log);
      assert m3.report.log[|m.report.log| + 1..|m3.report.log| - 1] == NewReports(m1, m2);
    }
  }

  /** The task state is never set back to Ok: a failed runner stays failed
      through a whole run. */
  lemma TaskStateStaysFailed<A>(t: TaskEnv<A>, m: Machine<A>)
    requires StagesDeclared(t.flow)
    requires m.taskState == TaskState.Fail
    ensures Run(t, m).1.taskState == TaskState.Fail
  {
    var (startFailure, report1) := Call(m.report, Start);
    var m1 := m.(report := report1);
    if startFailure.None? {
      StartRunEffects(t, m1, t.flow.stageIds);
    }
  }

  /** The first load of a round that brings no rows is the error "011"; an
      empty load after a batch ends the round normally. */
  lemma EmptyLoad<A>(t: TaskEnv<A>, m: Machine<A>, stageId: string, concurrency: nat, loadTimes: nat)
    requires stageId in t.flow.stages
    requires !t.engine.elapsed(stageId, |m.load.log|)
    requires StageLoad(t, m.load, stageId, concurrency).0 == Result.Ok([])
    ensures RunRemaining(t, m, stageId, concurrency, loadTimes).0 ==
            if loadTimes == 0 then Failed(Error("011", "no case provided")) else Done
  {
  }

  /** A stage whose timer has fired ends without loading again and without
      an error. */
  lemma ElapsedStageIsOk<A>(t: TaskEnv<A>, m: Machine<A>, stageId: string)
    requires stageId in t.flow.stages
    requires StepVecFrom(t, RenderContextCreate(t.flow, t.preCtx), t.flow.stages[stageId].steps, []).Ok?
    requires t.engine.elapsed(stageId, |m.load.log|)
    ensures StageRun(t, m, stageId).0 == Result.Ok(())
  {
  }

  /** The filtered load adds only rows the filter keeps. */
  lemma {:induction false} FilteredLoadKeeps<A>(t: TaskEnv<A>, filter: string, l: CaseLoad, size: nat, kept: seq<Row>)
    requires |kept| <= size
    ensures var r := FilteredLoad(t, filter, l, size, kept).0;
            r.Ok? ==> forall k | |kept| <= k < |r.value| :: Keeps(t, filter, r.value[k])
    decreases |l.pages|
  {
    var (page, l1) := Pull(l, size - |kept|);
    var r := FilteredLoad(t, filter, l, size, kept).0;
    if r.Ok? && page.Ok? && page.value != [] {
      var picked := FilterRows(t, filter, page.value);
      var more := kept + picked;
      if |more| < size {
        FilteredLoadKeeps(t, filter, l1, size, more);
        assert r == FilteredLoad(t, filter, l1, size, more).0;
        KeepsAfter(t, filter, kept, picked, r.value);
      } else {
        assert r.value == more;
        KeepsAfter(t, filter, kept, picked, r.value);
      }
    }
  }

  /** Rows that start with `kept` and then the filtered `picked` rows, and
      whose later rows the filter keeps, are kept past `kept`. */
  lemma KeepsAfter<A>(t: TaskEnv<A>, filter: string, kept: seq<Row>, picked: seq<Row>, rows: seq<Row>)
    requires |kept + picked| <= |rows| && rows[..|kept + picked|] == kept + picked
    requires forall k | 0 <= k < |picked| :: Keeps(t, filter, picked[k])
    requires forall k | |kept + picked| <= k < |rows| :: Keeps(t, filter, rows[k])
    ensures forall k | |kept| <= k < |rows| :: Keeps(t, filter, rows[k])
  {
    forall k | |kept| <= k < |kept + picked| ensures Keeps(t, filter, rows[k]) {
      assert rows[k] == rows[..|kept + picked|][k] == picked[k - |kept|];
    }
  }

  /** No load of the filtered loop asks for more rows than are still
      missing, and the first asks for exactly those. */
  lemma {:induction false} FilteredLoadAsks<A>(t: TaskEnv<A>, filter: string, l: CaseLoad, size: nat, kept: seq<Row>)
    requires |kept| <= size
    ensures var l' := FilteredLoad(t, filter, l, size, kept).1;
            var calls := l'.log[|l.log|..];
            (forall k | 0 <= k < |calls| :: calls[k].Load? && calls[k].size <= size - |kept|) &&
            calls[0] == Load(size - |kept|, calls[0].got)
    decreases |l.pages|
  {
    var (page, l1) := Pull(l, size - |kept|);
    var l' := FilteredLoad(t, filter, l, size, kept).1;
    assert l1.log[|l.log|..] == [Load(size - |kept|, if page.Ok? then |page.value| else 0)];
    if page.Ok? && page.value != [] {
      var more := kept + FilterRows(t, filter, page.value);
      if |more| < size {
        FilteredLoadAsks(t, filter, l1, size, more);
        assert l' == FilteredLoad(t, filter, l1, size, more).1;
        ExtendsTrans(l.log, l1.log, l'.log);
        LoadsAtMost(l1.log[|l.log|..], l'.log[|l1.log|..], size - |kept|);
      }
    }
  }

  /** Two stretches of loads that each ask for at most `bound` rows make
      one. */
  lemma LoadsAtMost(a: seq<LoadCall>, b: seq<LoadCall>, bound: nat)
    requires forall k | 0 <= k < |a| :: a[k].Load? && a[k].size <= bound
    requires forall k | 0 <= k < |b| :: b[k].Load? && b[k].size <= bound
    ensures forall k | 0 <= k < |a + b| :: (a + b)[k].Load? && (a + b)[k].size <= bound
  {
    forall k | 0 <= k < |a + b| ensures (a + b)[k].Load? && (a + b)[k].size <= bound {
      if k < |a| { assert (a + b)[k] == a[k]; } else { assert (a + b)[k] == b[k - |a|]; }
    }
  }

  /** The filtered loop returns fewer than `size` rows only after a load
      that brought none. */
  lemma {:induction false} FilteredLoadShort<A>(t: TaskEnv<A>, filter: string, l: CaseLoad, size: nat, kept: seq<Row>)
    requires |kept| <= size
    ensures var (r, l') := FilteredLoad(t, filter, l, size, kept);
            r.Ok? && |r.value| < size ==> l'.log[|l'.log| - 1].got == 0
    decreases |l.pages|
  {
    var (page, l1) := Pull(l, size - |kept|);
    if page.Ok? && page.value != [] {
      var more := kept + FilterRows(t, filter, page.value);
      if |more| < size {
        FilteredLoadShort(t, filter, l1, size, more);
      }
    }
  }
}
