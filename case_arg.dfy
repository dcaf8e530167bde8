/** The per-case argument of the engine revision (`flow/src/flow/case/arg.rs`):
    the case identity with its display text, and the case's render context. */
module CaseArg {
  import opened Common
  import opened JsonValue
  import opened Chord

  /** `Display for CaseIdStruct`: "{task_id}-{exec_id}-{case}". */
  function CaseIdText(id: CaseId): string
  {
    id.taskId.text + "-" + id.execId + "-" + id.caseName
  }

  /** Within one task the display text tells executions and cases apart,
      as long as execution ids contain no dash. */
  lemma CaseIdTextInjective(a: CaseId, b: CaseId)
    requires a.taskId == b.taskId && '-' !in a.execId && '-' !in b.execId
    requires CaseIdText(a) == CaseIdText(b)
    ensures a == b
  {
    var p := a.taskId.text + "-";
    var ta, tb := CaseIdText(a), CaseIdText(b);
    assert ta == p + (a.execId + "-" + a.caseName);
    assert tb == p + (b.execId + "-" + b.caseName);
    assert ta[|p|..] == a.execId + "-" + a.caseName;
    assert tb[|p|..] == b.execId + "-" + b.caseName;
    SplitAtSeparator('-', a.execId, a.caseName, b.execId, b.caseName);
  }

  /** `CaseArgStruct`: the flow, the stage's created actions, the row's data,
      the optional pre-stage context and the case identity. */
  datatype CaseArgStruct<A> = CaseArgStruct(
    flow: Flow,
    stepVec: seq<(string, A)>,
    data: Json,
    preCtx: Option<Json>,
    id: CaseId)

  /** `CaseArgStruct::new`: the identity is built from the task id, the
      case id and the execution id given; everything else is kept as given,
      so the accessors `id`, `step_vec` and `take_data` return them. */
  function NewCaseArg<A>(
    flow: Flow, stepVec: seq<(string, A)>, data: Json, preCtx: Option<Json>,
    taskId: TaskId, caseName: string, execId: string): (c: CaseArgStruct<A>)
    ensures c.id.taskId == taskId && c.id.caseName == caseName && c.id.execId == execId
    ensures c.stepVec == stepVec && c.data == data && c.preCtx == preCtx && c.flow == flow
    ensures CaseIdText(c.id) == taskId.text + "-" + execId + "-" + caseName
  {
    CaseArgStruct(flow, stepVec, data, preCtx, CaseId(taskId, execId, caseName))
  }

  /** `create_render_context`: "case" is the row, "step" starts empty,
      "curr" is null; "def" and "pre" are present exactly when the flow has
      constant data and the task has a pre-stage context. */
  function CreateRenderContext<A>(c: CaseArgStruct<A>): (r: Json)
    ensures r.Obj?
    ensures "case" in r.fields && r.fields["case"] == c.data
    ensures Get(r, "step") == Obj(map[])
    ensures "curr" in r.fields && r.fields["curr"] == Null
    ensures ("def" in r.fields) <==> c.flow.def.Some?
    ensures c.flow.def.Some? ==> r.fields["def"] == c.flow.def.value
    ensures ("pre" in r.fields) <==> c.preCtx.Some?
    ensures c.preCtx.Some? ==> r.fields["pre"] == c.preCtx.value
    ensures forall k :: k in r.fields ==> k in {"def", "case", "step", "curr", "pre"}
  {
    var withDef: map<string, Json> := if c.flow.def.Some? then map["def" := c.flow.def.value] else map[];
    var base := withDef["case" := c.data]["step" := Obj(map[])]["curr" := Null];
    Obj(if c.preCtx.Some? then base["pre" := c.preCtx.value] else base)
  }
}
