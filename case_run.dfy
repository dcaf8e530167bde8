/** The sequential point loop of the point revision (`flow/src/flow/case/mod.rs`):
    points run in declared order against a render context that each passed
    point extends with its result under `dyn.<point id>`; the first point
    that errs or fails its assertion ends the case. As written, registering
    a passed point aborts the program on a context without a "dyn" entry;
    the loop here registers the way it evidently should, and
    `PointsAsWritten` is the loop as written. */
module CaseRun {
  import opened Common
  import opened JsonValue

  type Time = int

  /** A point's result in this revision: its value, or its error. */
  type PointResult = Result<Json, Error>

  /** `CaseState` of the point revision. */
  datatype CaseState = Ok | PointFailure | PointError(error: Error)

  /** `CaseAssessStruct`: every point run so far with its result, the case
      id, the clock readings and the state. */
  datatype CaseAssessStruct = CaseAssessStruct(
    results: seq<(string, PointResult)>,
    id: string,
    start: Time,
    end: Time,
    state: CaseState)

  /** The case's render context; `register_dynamic` writes into it. */
  class RenderContext {
    var data: Json

    constructor (data: Json)
      ensures this.data == data
    {
      this.data := data;
    }
  }

  /** The precondition of the corrected registration: the "dyn" entry is
      missing, null or an object, so that it can be created or extended
      (writing a member into any other JSON value aborts the program). */
  predicate DynWritable(data: Json)
  {
    data.Obj? ==> Indexable(Get(data, "dyn"))
  }

  /** The context data after the corrected `register_dynamic`: the result
      sits at `dyn.<point id>`, a missing "dyn" entry is created, everything
      else is kept; data that is not an object is left alone. */
  function RegisterDyn(data: Json, pointId: string, result: Json): (r: Json)
    requires DynWritable(data)
    ensures DynWritable(r)
    ensures data.Obj? ==> r.Obj? && Fold(r, ["dyn", pointId]) == result
    ensures data.Obj? ==> r.fields.Keys == data.fields.Keys + {"dyn"}
    ensures data.Obj? ==> forall k :: k in data.fields && k != "dyn" ==> r.fields[k] == data.fields[k]
    ensures data.Obj? ==> forall q :: q != pointId ==> Get(Get(r, "dyn"), q) == Get(Get(data, "dyn"), q)
    ensures !data.Obj? ==> r == data
  {
    if data.Obj? then
      FoldPair(SetPath2(data, "dyn", pointId, result), "dyn", pointId);
      SetPath2(data, "dyn", pointId, result)
    else data
  }

  /** `data["dyn"][point_id] = …` as written runs without aborting: the
      context's map index operator aborts on a missing key, so "dyn" must
      be present, and null or an object. */
  predicate DynPresent(data: Json)
  {
    data.Obj? ==> "dyn" in data.fields && Indexable(data.fields["dyn"])
  }

  /** `register_dynamic` as written: `None` when the program aborts, which
      is exactly when the data is an object without a usable "dyn" entry;
      otherwise the corrected registration's data. */
  function RegisterDynAsWritten(data: Json, pointId: string, result: Json): (r: Option<Json>)
    ensures r.None? <==> !DynPresent(data)
    ensures r.Some? ==> DynWritable(data) && r.value == RegisterDyn(data, pointId, result)
    ensures r.Some? ==> DynPresent(r.value)
  {
    if !data.Obj? then Some(data)
    else if "dyn" in data.fields && Indexable(data.fields["dyn"]) then Some(SetPath2(data, "dyn", pointId, result))
    else None
  }

  /** `register_dynamic`. */
  method RegisterDynamic(ctx: RenderContext, pointId: string, result: Json)
    requires DynWritable(ctx.data)
    modifies ctx
    ensures ctx.data == RegisterDyn(old(ctx.data), pointId, result)
  {
    if ctx.data.Obj? {
      ctx.data := SetPath2(ctx.data, "dyn", pointId, result);
    }
  }

  /** `create_point` of the case argument: the point for an id, built
      against the current context data, or `None` for an unknown id. */
  type Creator<P> = (string, Json) -> Option<P>

  /** `point::assert`: whether the point's value passes its assertion. */
  type Asserter<!P> = (P, Json) -> bool

  /** Every result from index `from` on is `Ok`, except the last `skipLast`. */
  predicate AllOkFrom(results: seq<(string, PointResult)>, from: nat, skipLast: nat)
  {
    forall k | from <= k < |results| - skipLast :: results[k].1.Ok?
  }

  /** The loop from the remaining ids on, with the context data and the
      results collected so far: an unknown point ends the case with
      Err("000"); otherwise the outcome is the results and the state. */
  function Points<P>(ids: seq<string>, data: Json, done: seq<(string, PointResult)>,
                     create: Creator<P>, run: P -> PointResult, check: Asserter<P>)
    : (r: Result<(seq<(string, PointResult)>, CaseState), Error>)
    requires DynWritable(data)
    ensures r.Err? ==> r.error == Error("000", "invalid point")
    ensures r.Ok? ==> |done| <= |r.value.0| <= |done| + |ids| && r.value.0[..|done|] == done
    ensures r.Ok? ==> forall k | |done| <= k < |r.value.0| :: r.value.0[k].0 == ids[k - |done|]
    ensures r.Ok? && r.value.1.Ok? ==> |r.value.0| == |done| + |ids| && AllOkFrom(r.value.0, |done|, 0)
    ensures r.Ok? && r.value.1.PointError? ==>
      |r.value.0| > |done| && r.value.0[|r.value.0| - 1].1 == Result.Err(r.value.1.error) && AllOkFrom(r.value.0, |done|, 1)
    ensures r.Ok? && r.value.1.PointFailure? ==>
      |r.value.0| > |done| && r.value.0[|r.value.0| - 1].1.Ok? && AllOkFrom(r.value.0, |done|, 1)
    decreases |ids|
  {
    if ids == [] then Result.Ok((done, CaseState.Ok))
    else
      match create(ids[0], data)
      case None => Result.Err(Error("000", "invalid point"))
      case Some(p) =>
        var result := run(p);
        var results := done + [(ids[0], result)];
        match result
        case Ok(value) =>
          if check(p, value) then Points(ids[1..], RegisterDyn(data, ids[0], value), results, create, run, check)
          else Result.Ok((results, PointFailure))
        case Err(e) => Result.Ok((results, PointError(e)))
  }

  /** A passed point's value is visible at `dyn.<id>` to the next point,
      which is created against the extended context. */
  lemma PassedPointIsRegistered<P>(ids: seq<string>, data: Json, done: seq<(string, PointResult)>,
                                  create: Creator<P>, run: P -> PointResult, check: Asserter<P>)
    requires DynWritable(data) && data.Obj? && |ids| > 0
    requires create(ids[0], data).Some?
    requires run(create(ids[0], data).value).Ok?
    requires check(create(ids[0], data).value, run(create(ids[0], data).value).value)
    ensures var v := run(create(ids[0], data).value).value;
            var next := RegisterDyn(data, ids[0], v);
            Fold(next, ["dyn", ids[0]]) == v &&
            Points(ids, data, done, create, run, check) ==
            Points(ids[1..], next, done + [(ids[0], Result.Ok(v))], create, run, check)
  {
  }

  /** The first of the remaining points is created, runs `Ok` and passes
      its assertion. */
  predicate FirstPasses<P>(ids: seq<string>, data: Json, create: Creator<P>, run: P -> PointResult, check: Asserter<P>)
  {
    && ids != []
    && create(ids[0], data).Some?
    && run(create(ids[0], data).value).Ok?
    && check(create(ids[0], data).value, run(create(ids[0], data).value).value)
  }

  /** The context the second point is created against once the first
      one passed. */
  function Next<P>(ids: seq<string>, data: Json, create: Creator<P>, run: P -> PointResult, check: Asserter<P>): (c: Json)
    requires DynWritable(data) && FirstPasses(ids, data, create, run, check)
    ensures DynWritable(c)
  {
    RegisterDyn(data, ids[0], run(create(ids[0], data).value).value)
  }

  /** How many points pass, in order, from `data` on: each is created
      against the context its predecessors registered into, runs `Ok` and
      passes its assertion. */
  function Passing<P>(ids: seq<string>, data: Json, create: Creator<P>, run: P -> PointResult, check: Asserter<P>): (n: nat)
    requires DynWritable(data)
    ensures n <= |ids|
    decreases |ids|
  {
    if FirstPasses(ids, data, create, run, check) then 1 + Passing(ids[1..], Next(ids, data, create, run, check), create, run, check)
    else 0
  }

  /** The context point `k` is created against, for every point up to the
      first one that does not pass. */
  function ContextAt<P>(ids: seq<string>, data: Json, create: Creator<P>, run: P -> PointResult, check: Asserter<P>, k: nat): (c: Json)
    requires DynWritable(data) && k <= Passing(ids, data, create, run, check)
    ensures DynWritable(c)
    decreases k
  {
    if k == 0 then data else ContextAt(ids[1..], Next(ids, data, create, run, check), create, run, check, k - 1)
  }

  /** The results of the first `k` passing points, in order. */
  function PassedResults<P>(ids: seq<string>, data: Json, create: Creator<P>, run: P -> PointResult, check: Asserter<P>,
                            k: nat): (rs: seq<(string, PointResult)>)
    requires DynWritable(data) && k <= Passing(ids, data, create, run, check)
    ensures |rs| == k
    decreases k
  {
    if k == 0 then []
    else [(ids[0], run(create(ids[0], data).value))] + PassedResults(ids[1..], Next(ids, data, create, run, check), create, run, check, k - 1)
  }

  /** The first point that does not pass, if any, indeed does not pass in
      the context it is created against. */
  lemma {:induction false} StopPoint<P>(ids: seq<string>, data: Json, create: Creator<P>, run: P -> PointResult, check: Asserter<P>)
    requires DynWritable(data)
    ensures var n := Passing(ids, data, create, run, check);
            n < |ids| ==> !FirstPasses(ids[n..], ContextAt(ids, data, create, run, check, n), create, run, check)
    decreases |ids|
  {
    if FirstPasses(ids, data, create, run, check) {
      var n := Passing(ids, data, create, run, check);
      StopPoint(ids[1..], Next(ids, data, create, run, check), create, run, check);
      RestartArgs(ids, data, [], create, run, check, n);
    } else {
      assert ids[0..] == ids;
    }
  }

  /** Restarting after the first passing point and then after `k - 1`
      more is restarting after `k`. */
  lemma RestartArgs<P>(ids: seq<string>, data: Json, done: seq<(string, PointResult)>,
                       create: Creator<P>, run: P -> PointResult, check: Asserter<P>, k: nat)
    requires DynWritable(data) && 0 < k <= Passing(ids, data, create, run, check)
    ensures FirstPasses(ids, data, create, run, check)
    ensures k - 1 <= Passing(ids[1..], Next(ids, data, create, run, check), create, run, check)
    ensures ids[1..][k - 1..] == ids[k..]
    ensures ContextAt(ids[1..], Next(ids, data, create, run, check), create, run, check, k - 1) ==
            ContextAt(ids, data, create, run, check, k)
    ensures (done + [(ids[0], run(create(ids[0], data).value))]) +
              PassedResults(ids[1..], Next(ids, data, create, run, check), create, run, check, k - 1) ==
            done + PassedResults(ids, data, create, run, check, k)
  {
  }

  /** After a passing first point the loop goes on from the context it
      registered into. */
  lemma PassedPointContinues<P>(ids: seq<string>, data: Json, done: seq<(string, PointResult)>,
                                create: Creator<P>, run: P -> PointResult, check: Asserter<P>)
    requires DynWritable(data) && FirstPasses(ids, data, create, run, check)
    ensures Points(ids, data, done, create, run, check) ==
            Points(ids[1..], Next(ids, data, create, run, check),
                   done + [(ids[0], run(create(ids[0], data).value))], create, run, check)
  {
  }

  /** The loop restarted after `k` passing points, from the context they
      registered into and with their results appended, is the same loop. */
  lemma {:induction false} SkipPassed<P>(ids: seq<string>, data: Json, done: seq<(string, PointResult)>,
                                         create: Creator<P>, run: P -> PointResult, check: Asserter<P>, k: nat)
    requires DynWritable(data) && k <= Passing(ids, data, create, run, check)
    ensures Points(ids, data, done, create, run, check) ==
            Points(ids[k..], ContextAt(ids, data, create, run, check, k),
                   done + PassedResults(ids, data, create, run, check, k), create, run, check)
    decreases k
  {
    if k == 0 {
      assert ids[0..] == ids;
      assert ContextAt(ids, data, create, run, check, 0) == data;
      assert done + PassedResults(ids, data, create, run, check, 0) == done;
    } else {
      RestartArgs(ids, data, done, create, run, check, k);
      var next := Next(ids, data, create, run, check);
      PassedPointContinues(ids, data, done, create, run, check);
      SkipPassed(ids[1..], next, done + [(ids[0], run(create(ids[0], data).value))], create, run, check, k - 1);
    }
  }

  /** The loop's outcome is decided by the first point `n` that does not
      pass: none gives `Ok`; an unknown point gives Err "000"; a run error
      gives `PointError` with that error; a false assertion gives
      `PointFailure`. The stopping point's result is the last one. */
  lemma {:induction false} PointsByFirstStop<P>(ids: seq<string>, data: Json, done: seq<(string, PointResult)>,
                             create: Creator<P>, run: P -> PointResult, check: Asserter<P>)
    requires DynWritable(data)
    ensures var n := Passing(ids, data, create, run, check);
            var r := Points(ids, data, done, create, run, check);
            && ((r.Ok? && r.value.1.Ok?) <==> n == |ids|)
            && (n < |ids| ==>
                  var c := ContextAt(ids, data, create, run, check, n);
                  && (r.Err? <==> create(ids[n], c).None?)
                  && (create(ids[n], c).Some? ==>
                        var res := run(create(ids[n], c).value);
                        && r.Ok? && |r.value.0| == |done| + n + 1
                        && r.value.0[|done| + n] == (ids[n], res)
                        && (res.Err? ==> r.value.1 == PointError(res.error))
                        && (res.Ok? ==> r.value.1 == PointFailure)))
  {
    var n := Passing(ids, data, create, run, check);
    SkipPassed(ids, data, done, create, run, check, n);
    StopPoint(ids, data, create, run, check);
    if n == |ids| {
      assert ids[n..] == [];
    } else {
      assert ids[n..][0] == ids[n];
    }
  }

  /** The point loop as written: `None` when registering a passed point
      aborts the program. While the "dyn" entry is usable it agrees with
      the corrected loop. */
  function PointsAsWritten<P>(ids: seq<string>, data: Json, done: seq<(string, PointResult)>,
                              create: Creator<P>, run: P -> PointResult, check: Asserter<P>)
    : (r: Option<Result<(seq<(string, PointResult)>, CaseState), Error>>)
    ensures DynPresent(data) ==> r == Some(Points(ids, data, done, create, run, check))
    decreases |ids|
  {
    if ids == [] then Some(Result.Ok((done, CaseState.Ok)))
    else
      match create(ids[0], data)
      case None => Some(Result.Err(Error("000", "invalid point")))
      case Some(p) =>
        var result := run(p);
        var results := done + [(ids[0], result)];
        match result
        case Ok(value) =>
          if check(p, value) then
            match RegisterDynAsWritten(data, ids[0], value)
            case None => None
            case Some(next) => PointsAsWritten(ids[1..], next, results, create, run, check)
          else Some(Result.Ok((results, PointFailure)))
        case Err(e) => Some(Result.Ok((results, PointError(e))))
  }

  /** From a context without "dyn", the loop as written aborts exactly when
      its first point passes, and otherwise ends as the corrected loop. */
  lemma AbortsAtFirstPass<P>(ids: seq<string>, data: Json, done: seq<(string, PointResult)>,
                             create: Creator<P>, run: P -> PointResult, check: Asserter<P>)
    requires data.Obj? && "dyn" !in data.fields
    ensures PointsAsWritten(ids, data, done, create, run, check).None? <==> FirstPasses(ids, data, create, run, check)
    ensures !FirstPasses(ids, data, create, run, check) ==>
      PointsAsWritten(ids, data, done, create, run, check) == Some(Points(ids, data, done, create, run, check))
  {
  }

  /** `run`: the case's initial render context data (`create_render_context`)
      and the clock readings are inputs. */
  method Run<P>(id: string, pointIds: seq<string>, initial: Json,
                create: Creator<P>, run: P -> PointResult, check: Asserter<P>,
                start: Time, end: Time)
    returns (r: Result<CaseAssessStruct, Error>)
    requires DynWritable(initial)
    ensures Points(pointIds, initial, [], create, run, check).Err? ==>
      r == Result.Err(Points(pointIds, initial, [], create, run, check).error)
    ensures Points(pointIds, initial, [], create, run, check).Ok? ==>
      var (results, state) := Points(pointIds, initial, [], create, run, check).value;
      r == Result.Ok(CaseAssessStruct(results, id, start, end, state))
  {
    var renderContext := new RenderContext(initial);
    var results: seq<(string, PointResult)> := [];
    var i := 0;
    while i < |pointIds|
      invariant 0 <= i <= |pointIds|
      invariant DynWritable(renderContext.data)
      invariant Points(pointIds, initial, [], create, run, check) ==
                Points(pointIds[i..], renderContext.data, results, create, run, check)
    {
      assert pointIds[i..][0] == pointIds[i] && pointIds[i..][1..] == pointIds[i + 1..];
      var point := create(pointIds[i], renderContext.data);
      if point.None? {
        return Result.Err(Error("000", "invalid point"));
      }
      var result := run(point.value);
      results := results + [(pointIds[i], result)];
      match result {
        case Ok(value) =>
          if check(point.value, value) {
            RegisterDynamic(renderContext, pointIds[i], value);
          } else {
            return Result.Ok(CaseAssessStruct(results, id, start, end, PointFailure));
          }
        case Err(e) =>
          return Result.Ok(CaseAssessStruct(results, id, start, end, PointError(e)));
      }
      i := i + 1;
    }
    return Result.Ok(CaseAssessStruct(results, id, start, end, CaseState.Ok));
  }
}
