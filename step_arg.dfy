/** The per-step arguments of the engine revision (`flow/src/flow/step/arg.rs`):
    the step identity with its display text, the argument given to an action
    factory when a stage creates its actions, and the argument given to an
    action when a case runs it. */
module StepArg {
  import opened Common
  import opened JsonValue
  import opened Chord
  import opened CaseArg

  /** `Display for StepIdStruct`: "{case_id}-{step}". */
  function StepIdText(id: StepId): string
  {
    CaseIdText(id.caseId) + "-" + id.step
  }

  /** Within one case the display text names the step. */
  lemma StepIdTextInjective(a: StepId, b: StepId)
    requires a.caseId == b.caseId
    requires StepIdText(a) == StepIdText(b)
    ensures a == b
  {
    var p := CaseIdText(a.caseId) + "-";
    assert StepIdText(a) == p + a.step && StepIdText(b) == p + b.step;
    assert a.step == StepIdText(a)[|p|..] == StepIdText(b)[|p|..] == b.step;
  }

  /** `CreateArgStruct`: the factory argument of one step. */
  datatype CreateArgStruct = CreateArgStruct(
    flow: Flow,
    render: Renderer,
    renderContext: Json,
    action: string,
    id: StepId,
    idStr: string)

  /** `CreateArgStruct::new`: the step sits in the pseudo case "create" of
      the pseudo execution "create", and `id()` is its display text. */
  function NewCreateArg(flow: Flow, render: Renderer, renderContext: Json, taskId: TaskId, action: string, step: string): (c: CreateArgStruct)
    ensures c.id == StepId(step, CaseId(taskId, "create", "create"))
    ensures c.idStr == taskId.text + "-create-create-" + step
    ensures c.action == action && c.flow == flow && c.renderContext == renderContext
  {
    var id := StepId(step, CaseId(taskId, "create", "create"));
    CreateArgStruct(flow, render, renderContext, action, id, StepIdText(id))
  }

  /** `CreateArg::config`: the step's configuration from the flow. */
  function CreateConfig(c: CreateArgStruct): (r: Json)
    ensures c.id.step in c.flow.steps ==> r == c.flow.steps[c.id.step].config
  {
    c.flow.StepOf(c.id.step).config
  }

  /** `CreateArg::render_str`: renders against the context the stage gave. */
  function CreateRenderStr(c: CreateArgStruct, text: string): Result<string, Error>
  {
    c.render(c.renderContext, text)
  }

  /** `is_shared`: a text may be resolved once per task exactly when it
      refers to none of the per-case namespaces "data", "step" and "curr". */
  function IsShared(text: string): (r: bool)
    ensures r <==> !Contains(text, "{{data.") && !Contains(text, "{{step.") && !Contains(text, "{{curr.")
  {
    if Contains(text, "{{data.") then false
    else if Contains(text, "{{step.") then false
    else if Contains(text, "{{curr.") then false
    else true
  }

  /** Sharing is closed under taking parts: a text whose pieces are not all
      shared is not shared either. */
  lemma IsSharedParts(a: string, b: string)
    ensures IsShared(a + b) ==> IsShared(a) && IsShared(b)
  {
    ContainsInConcat(a, b, "{{data.");
    ContainsInConcat(a, b, "{{step.");
    ContainsInConcat(a, b, "{{curr.");
  }

  /** An occurrence of a pattern is an occurrence of each of its prefixes. */
  lemma ContainsPrefix(text: string, pattern: string, n: nat)
    requires n <= |pattern|
    ensures Contains(text, pattern) ==> Contains(text, pattern[..n])
  {
    if Contains(text, pattern) {
      var i :| 0 <= i <= |text| - |pattern| && OccursAt(text, pattern, i);
      assert text[i..i + n] == text[i..i + |pattern|][..n];
      assert OccursAt(text, pattern[..n], i);
    }
  }

  /** Text without any template opening is shared. */
  lemma PlainTextIsShared(text: string)
    requires !Contains(text, "{{")
    ensures IsShared(text)
  {
    assert "{{data."[..2] == "{{step."[..2] == "{{curr."[..2] == "{{";
    ContainsPrefix(text, "{{data.", 2);
    ContainsPrefix(text, "{{step.", 2);
    ContainsPrefix(text, "{{curr.", 2);
  }

  /** A reference into a per-case namespace is never shared. */
  lemma CaseReferenceNotShared(prefix: string, path: string, suffix: string)
    ensures !IsShared(prefix + "{{data." + path + suffix)
    ensures !IsShared(prefix + "{{step." + path + suffix)
    ensures !IsShared(prefix + "{{curr." + path + suffix)
  {
    var ns := ["{{data.", "{{step.", "{{curr."];
    forall k | 0 <= k < 3
      ensures Contains(prefix + ns[k] + path + suffix, ns[k])
    {
      assert OccursAt(ns[k], ns[k], 0);
      ContainsInConcat(prefix, ns[k], ns[k]);
      ContainsInConcat(prefix + ns[k], path, ns[k]);
      ContainsInConcat(prefix + ns[k] + path, suffix, ns[k]);
    }
    assert Contains(prefix + ns[0] + path + suffix, ns[0]);
    assert Contains(prefix + ns[1] + path + suffix, ns[1]);
    assert Contains(prefix + ns[2] + path + suffix, ns[2]);
  }

  /** `RunArgStruct`: the argument of one step run inside one case. */
  datatype RunArgStruct = RunArgStruct(
    flow: Flow,
    render: Renderer,
    renderContext: Json,
    id: StepId,
    idStr: string)

  /** `RunArgStruct::new`: the step within the given case; `id()` is its
      display text, which names the case and ends with the step. */
  function NewRunArg(flow: Flow, render: Renderer, renderContext: Json, caseId: CaseId, step: string): (r: RunArgStruct)
    ensures r.id == StepId(step, caseId)
    ensures r.idStr == CaseIdText(caseId) + "-" + step
    ensures r.flow == flow && r.renderContext == renderContext
  {
    var id := StepId(step, caseId);
    RunArgStruct(flow, render, renderContext, id, StepIdText(id))
  }

  /** `RunArg::config`, `assert` and `timeout`: the flow's entries for the
      step the argument was built for. */
  lemma RunArgLookups(flow: Flow, render: Renderer, renderContext: Json, caseId: CaseId, step: string)
    requires step in flow.steps
    ensures RunConfig(NewRunArg(flow, render, renderContext, caseId, step)) == flow.steps[step].config
    ensures RunAssertion(NewRunArg(flow, render, renderContext, caseId, step)) == flow.steps[step].assertion
    ensures RunTimeout(NewRunArg(flow, render, renderContext, caseId, step)) == flow.steps[step].timeout
  {
  }

  function RunConfig(r: RunArgStruct): Json
  {
    r.flow.StepOf(r.id.step).config
  }

  function RunAssertion(r: RunArgStruct): Option<string>
  {
    r.flow.StepOf(r.id.step).assertion
  }

  function RunTimeout(r: RunArgStruct): nat
  {
    r.flow.StepOf(r.id.step).timeout
  }

  /** `RunArg::render_str`. */
  function RenderStr(r: RunArgStruct, text: string): Result<string, Error>
  {
    r.render(r.renderContext, text)
  }

  /** `render_value`: format the value as text, render it, parse it back; the
      first stage that fails decides the error. */
  function RenderValue(r: RunArgStruct, v: Json, toText: Json -> Result<string, Error>, parse: string -> Result<Json, Error>): (res: Result<Json, Error>)
    ensures toText(v).Err? ==> res == Result.Err(toText(v).error)
    ensures toText(v).Ok? && RenderStr(r, toText(v).value).Err? ==> res == Result.Err(RenderStr(r, toText(v).value).error)
    ensures toText(v).Ok? && RenderStr(r, toText(v).value).Ok? ==> res == parse(RenderStr(r, toText(v).value).value)
  {
    match toText(v)
    case Err(e) => Result.Err(e)
    case Ok(text) =>
      match RenderStr(r, text)
      case Err(e) => Result.Err(e)
      case Ok(rendered) => parse(rendered)
  }

  /** A value whose text the template engine leaves untouched renders to
      itself, provided printing and parsing are inverse on it. */
  lemma RenderValueFixpoint(r: RunArgStruct, v: Json, toText: Json -> Result<string, Error>, parse: string -> Result<Json, Error>)
    requires toText(v).Ok? && parse(toText(v).value) == Result.Ok(v)
    requires r.render(r.renderContext, toText(v).value) == Result.Ok(toText(v).value)
    ensures RenderValue(r, v, toText, parse) == Result.Ok(v)
  {
  }
}
