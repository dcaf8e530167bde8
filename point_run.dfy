/** One point execution of the point revision (`flow/src/flow/point/mod.rs`):
    the point type is looked up, the point runner is invoked, and its value
    is judged by the point's optional assertion. */
module PointRun {
  import opened Common
  import opened JsonValue
  import opened PointArg

  type Time = int

  /** `PointState`: `Fail` carries the value whose assertion was false. */
  datatype PointState = Ok(value: Json) | Fail(value: Json) | Err(error: Error)

  datatype PointAssess = PointAssess(id: string, start: Time, end: Time, state: PointState)

  /** The point runner of the application context: given the point type and
      the argument, the point's value or an error (`PointValue`). */
  type PointRunner = (string, PointArgStruct) -> Result<Json, Error>

  /** `assert`: a point without a renderable "assert" entry passes. */
  function PointAssert(p: PointArgStruct, value: Json): (r: bool)
    ensures GetMetaStr(p, ["assert"]).None? ==> r
    ensures GetMetaStr(p, ["assert"]).Some? ==> (r <==> Assert(p, GetMetaStr(p, ["assert"]).value, value))
  {
    match GetMetaStr(p, ["assert"])
    case Some(condition) => Assert(p, condition, value)
    case None => true
  }

  /** `run`: the clock readings are inputs. */
  function Run(p: PointArgStruct, runner: PointRunner, start: Time, end: Time): (a: PointAssess)
    ensures a.id == p.pointId && a.start == start && a.end == end
    ensures GetMetaStr(p, ["type"]).None? ==> a.state == PointState.Err(Error("001", "missing type"))
    ensures GetMetaStr(p, ["type"]).Some? ==>
      var v := runner(GetMetaStr(p, ["type"]).value, p);
      (v.Err? ==> a.state == PointState.Err(v.error)) &&
      (v.Ok? && PointAssert(p, v.value) ==> a.state == PointState.Ok(v.value)) &&
      (v.Ok? && !PointAssert(p, v.value) ==> a.state == PointState.Fail(v.value))
  {
    match GetMetaStr(p, ["type"])
    case None => PointAssess(p.pointId, start, end, PointState.Err(Error("001", "missing type")))
    case Some(pointType) =>
      match runner(pointType, p)
      case Ok(json) =>
        if PointAssert(p, json) then PointAssess(p.pointId, start, end, PointState.Ok(json))
        else PointAssess(p.pointId, start, end, PointState.Fail(json))
      case Err(e) => PointAssess(p.pointId, start, end, PointState.Err(e))
  }

  /** Without a point type the runner is never consulted: any two runners
      give the same assessment. */
  lemma RunWithoutTypeIgnoresRunner(p: PointArgStruct, r1: PointRunner, r2: PointRunner, start: Time, end: Time)
    requires GetMetaStr(p, ["type"]).None?
    ensures Run(p, r1, start, end) == Run(p, r2, start, end)
  {
  }

  /** The state carries the runner's value whenever the runner returned one:
      the assertion only chooses between `Ok` and `Fail`. */
  lemma RunKeepsValue(p: PointArgStruct, runner: PointRunner, start: Time, end: Time)
    requires GetMetaStr(p, ["type"]).Some?
    requires runner(GetMetaStr(p, ["type"]).value, p).Ok?
    ensures !Run(p, runner, start, end).state.Err?
    ensures Run(p, runner, start, end).state.value == runner(GetMetaStr(p, ["type"]).value, p).value
  {
  }
}
