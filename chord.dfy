/** The shared types of the `chord` crate: identities, the tri-state outcomes
    of a step, a case and a task, and the parsed flow as the engine reads it. */
module Chord {
  import opened Common
  import opened JsonValue

  /** Timestamps (`DateTime<Utc>`) are opaque instants. */
  type Time = int

  /** A task identity: its name (`task_id()`) and the text its `Display`
      produces (the task id struct is not part of this model). */
  datatype TaskId = TaskId(taskId: string, text: string)

  /** `CaseIdStruct`: task, execution (round tag) and row id. */
  datatype CaseId = CaseId(taskId: TaskId, execId: string, caseName: string)

  /** `StepIdStruct`: a step name within a case. */
  datatype StepId = StepId(step: string, caseId: CaseId)

  /** `StepState`: `Fail` means the action ran and its assertion was false. */
  datatype StepState = Ok(value: Json) | Fail(value: Json) | Err(error: Error)
  {
    function IsOk(): (r: bool)
      ensures r <==> this.Ok?
    {
      match this
      case Ok(_) => true
      case _ => false
    }

    function IsErr(): (r: bool)
      ensures r <==> this.Err?
    {
      match this
      case Err(_) => true
      case _ => false
    }

    function IsFail(): (r: bool)
      ensures r <==> this.Fail?
    {
      match this
      case Fail(_) => true
      case _ => false
    }
  }

  /** Every step outcome answers exactly one of the three predicates. */
  lemma ExactlyOneStepPredicate(s: StepState)
    ensures (if s.IsOk() then 1 else 0) + (if s.IsErr() then 1 else 0) + (if s.IsFail() then 1 else 0) == 1
  {
  }

  datatype StepAssess = StepAssess(id: StepId, start: Time, end: Time, state: StepState)

  /** `CaseState`: `Ok` and `Fail` carry the steps that ran, `Err` only an error. */
  datatype CaseState = Ok(steps: seq<StepAssess>) | Err(error: Error) | Fail(steps: seq<StepAssess>)
  {
    function IsOk(): (r: bool)
      ensures r <==> this.Ok?
    {
      match this
      case Ok(_) => true
      case _ => false
    }
  }

  datatype CaseAssess = CaseAssess(id: CaseId, start: Time, end: Time, data: Json, state: CaseState)

  /** An assessment as a case run produces it: a failed case carries at
      least the step whose assertion failed. */
  type RanCaseAssess = a: CaseAssess | a.state.Fail? ==> |a.state.steps| > 0
    witness CaseAssess(CaseId(TaskId("", ""), "", ""), 0, 0, Null, CaseState.Ok([]))

  /** `TaskState` of the engine revision, without payload. */
  datatype TaskState = Ok | Fail | Err(error: Error)

  /** `TaskAssessStruct` without its timestamps. */
  datatype TaskAssess = TaskAssess(id: TaskId, state: TaskState)

  /** One step of the flow document. */
  datatype StepConf = StepConf(action: string, config: Json, assertion: Option<string>, timeout: nat)

  /** One stage of the flow document; `round` 0 stands for "once". */
  datatype StageConf = StageConf(
    steps: seq<string>,
    concurrency: nat,
    round: nat,
    duration: nat,
    breakOn: string,
    caseFilter: Option<string>)

  /** The parsed flow: optional constant data, optional pre-stage step list,
      the ordered stage ids and the stage and step tables. The flow crate
      itself is not part of this model: `fallback` stands for whatever its
      lookups answer for a step the table does not declare. */
  datatype Flow = Flow(
    def: Option<Json>,
    pre: Option<seq<string>>,
    stageIds: seq<string>,
    stages: map<string, StageConf>,
    steps: map<string, StepConf>,
    fallback: StepConf)
  {
    /** `step_config`, `step_assert`, `step_timeout` read this entry. */
    function StepOf(step: string): (c: StepConf)
      ensures step in steps ==> c == steps[step]
      ensures step !in steps ==> c == fallback
    {
      if step in steps then steps[step] else fallback
    }
  }

  /** Every stage the flow lists is declared, and so is every step a stage
      or the pre-stage lists. */
  ghost predicate ValidFlow(f: Flow)
  {
    (forall s :: s in f.stageIds ==> s in f.stages) &&
    (forall s :: s in f.stages ==> forall k :: 0 <= k < |f.stages[s].steps| ==> f.stages[s].steps[k] in f.steps) &&
    (f.pre.Some? ==> forall k :: 0 <= k < |f.pre.value| ==> f.pre.value[k] in f.steps)
  }

  /** The template engine: renders `text` against the context data. */
  type Renderer = (Json, string) -> Result<string, Error>
}
