/** The older sequential point loop (`src/flow/case/mod.rs`): the same walk
    over the points as the point revision, but every stop is an error that
    names the point, with code "000" (unknown point, no results), "001" (the
    point's run failed) or "002" (its assertion was false). */
module LegacyCase {
  import opened Common
  import opened JsonValue
  import opened CaseRun

  /** `CaseResult`: all results, or the stopping error with the results so
      far. */
  type CaseResult = Result<seq<(string, PointResult)>, (Error, seq<(string, PointResult)>)>

  /** The loop from the remaining ids on, given the context data and the
      results so far. */
  function Points<P>(ids: seq<string>, data: Json, done: seq<(string, PointResult)>,
                     create: Creator<P>, run: P -> PointResult, check: Asserter<P>): (r: CaseResult)
    requires DynWritable(data)
    ensures r.Ok? ==> |r.value| == |done| + |ids| && RanInOrder(done, ids, r.value, 0)
    ensures r.Err? ==> r.error.0.code in {"000", "001", "002"}
    ensures r.Err? && r.error.0.code == "000" ==>
      r.error.1 == [] && exists k | 0 <= k < |ids| :: r.error.0.message == "invalid point " + ids[k]
    ensures r.Err? && r.error.0.code != "000" ==>
      var results := r.error.1;
      |done| < |results| && RanInOrder(done, ids, results, 1) &&
      (r.error.0.code == "001" <==> results[|results| - 1].1.Err?) &&
      (r.error.0.code == "001" ==> r.error.0.message == "run failure " + results[|results| - 1].0) &&
      (r.error.0.code == "002" ==> r.error.0.message == "assert failure " + results[|results| - 1].0)
    decreases |ids|
  {
    if ids == [] then Result.Ok(done)
    else
      match create(ids[0], data)
      case None => Result.Err((Error("000", "invalid point " + ids[0]), []))
      case Some(p) =>
        var result := run(p);
        var results := done + [(ids[0], result)];
        match result
        case Ok(value) =>
          if check(p, value) then
            var rec := Points(ids[1..], RegisterDyn(data, ids[0], value), results, create, run, check);
            if rec.Ok? then
              ShiftResults(done, ids, result, rec.value, 0);
              rec
            else if rec.error.0.code != "000" then
              ShiftResults(done, ids, result, rec.error.1, 1);
              rec
            else
              InvalidShift(ids, rec.error.0.message);
              rec
          else
            FirstResult(done, ids, results, 1);
            Result.Err((Error("002", "assert failure " + ids[0]), results))
        case Err(_) =>
          FirstResult(done, ids, results, 1);
          Result.Err((Error("001", "run failure " + ids[0]), results))
  }

  /** The results after `done` are those of the ids in order, and all but
      the last `skipLast` of them passed. */
  predicate RanInOrder(done: seq<(string, PointResult)>, ids: seq<string>, rv: seq<(string, PointResult)>, skipLast: nat)
  {
    && |done| <= |rv| <= |done| + |ids|
    && rv[..|done|] == done
    && AllOkFrom(rv, |done|, skipLast)
    && forall k | |done| <= k < |rv| :: rv[k].0 == ids[k - |done|]
  }

  /** Results that go on with the rest of the ids after `done` and an Ok
      result for the first id go on with all of the ids after `done`. */
  lemma ShiftResults(done: seq<(string, PointResult)>, ids: seq<string>, result: PointResult,
                     rv: seq<(string, PointResult)>, skipLast: nat)
    requires ids != [] && result.Ok?
    requires RanInOrder(done + [(ids[0], result)], ids[1..], rv, skipLast)
    ensures RanInOrder(done, ids, rv, skipLast)
  {
    var results := done + [(ids[0], result)];
    assert rv[..|done|] == rv[..|results|][..|done|];
    assert rv[|done|] == rv[..|results|][|done|];
  }

  /** The result of the first id after `done`, alone, ran in order. */
  lemma FirstResult(done: seq<(string, PointResult)>, ids: seq<string>, results: seq<(string, PointResult)>, skipLast: nat)
    requires ids != [] && skipLast >= 1
    requires |results| == |done| + 1 && results[..|done|] == done && results[|done|].0 == ids[0]
    ensures RanInOrder(done, ids, results, skipLast)
  {
  }

  /** An unknown point among the rest of the ids is one of the ids. */
  lemma InvalidShift(ids: seq<string>, message: string)
    requires ids != []
    requires exists k | 0 <= k < |ids[1..]| :: message == "invalid point " + ids[1..][k]
    ensures exists k | 0 <= k < |ids| :: message == "invalid point " + ids[k]
  {
    var k :| 0 <= k < |ids[1..]| && message == "invalid point " + ids[1..][k];
    assert ids[1..][k] == ids[k + 1];
  }

  /** After a passing first point the loop goes on from the context it
      registered into. */
  lemma PassedPointContinues<P>(ids: seq<string>, data: Json, done: seq<(string, PointResult)>,
                                create: Creator<P>, run: P -> PointResult, check: Asserter<P>)
    requires DynWritable(data) && FirstPasses(ids, data, create, run, check)
    ensures Points(ids, data, done, create, run, check) ==
            Points(ids[1..], Next(ids, data, create, run, check),
                   done + [(ids[0], run(create(ids[0], data).value))], create, run, check)
  {
  }

  /** The legacy loop restarted after `k` passing points, from the context
      they registered into and with their results appended, is the same
      loop. */
  lemma {:induction false} SkipPassed<P>(ids: seq<string>, data: Json, done: seq<(string, PointResult)>,
                                         create: Creator<P>, run: P -> PointResult, check: Asserter<P>, k: nat)
    requires DynWritable(data) && k <= Passing(ids, data, create, run, check)
    ensures Points(ids, data, done, create, run, check) ==
            Points(ids[k..], ContextAt(ids, data, create, run, check, k),
                   done + PassedResults(ids, data, create, run, check, k), create, run, check)
    decreases k
  {
    if k == 0 {
      assert ids[0..] == ids;
      assert ContextAt(ids, data, create, run, check, 0) == data;
      assert done + PassedResults(ids, data, create, run, check, 0) == done;
    } else {
      RestartArgs(ids, data, done, create, run, check, k);
      var next := Next(ids, data, create, run, check);
      PassedPointContinues(ids, data, done, create, run, check);
      SkipPassed(ids[1..], next, done + [(ids[0], run(create(ids[0], data).value))], create, run, check, k - 1);
    }
  }

  /** The legacy loop's outcome is decided by the first point `n` that does
      not pass: none gives `Ok`; an unknown point gives "000" naming it with
      no results; a run error gives "001" and a false assertion "002", each
      naming the point, whose result is the last one. */
  lemma {:induction false} PointsByFirstStop<P>(ids: seq<string>, data: Json, done: seq<(string, PointResult)>,
                             create: Creator<P>, run: P -> PointResult, check: Asserter<P>)
    requires DynWritable(data)
    ensures var n := Passing(ids, data, create, run, check);
            var r := Points(ids, data, done, create, run, check);
            && (r.Ok? <==> n == |ids|)
            && (n < |ids| ==>
                  var c := ContextAt(ids, data, create, run, check, n);
                  && (create(ids[n], c).None? ==> r == Result.Err((Error("000", "invalid point " + ids[n]), [])))
                  && (create(ids[n], c).Some? ==>
                        var res := run(create(ids[n], c).value);
                        && r.Err? && |r.error.1| == |done| + n + 1
                        && r.error.1[|done| + n] == (ids[n], res)
                        && (res.Err? ==> r.error.0 == Error("001", "run failure " + ids[n]))
                        && (res.Ok? ==> r.error.0 == Error("002", "assert failure " + ids[n]))))
  {
    var n := Passing(ids, data, create, run, check);
    SkipPassed(ids, data, done, create, run, check, n);
    StopPoint(ids, data, create, run, check);
    if n == |ids| {
      assert ids[n..] == [];
    } else {
      assert ids[n..][0] == ids[n];
    }
  }

  /** The loop as written: `None` when registering a passed point aborts
      the program on a context without a usable "dyn" entry. While that
      entry is usable it agrees with the corrected loop. */
  function PointsAsWritten<P>(ids: seq<string>, data: Json, done: seq<(string, PointResult)>,
                              create: Creator<P>, run: P -> PointResult, check: Asserter<P>): (r: Option<CaseResult>)
    ensures DynPresent(data) ==> r == Some(Points(ids, data, done, create, run, check))
    decreases |ids|
  {
    if ids == [] then Some(Result.Ok(done))
    else
      match create(ids[0], data)
      case None => Some(Result.Err((Error("000", "invalid point " + ids[0]), [])))
      case Some(p) =>
        var result := run(p);
        var results := done + [(ids[0], result)];
        match result
        case Ok(value) =>
          if check(p, value) then
            match RegisterDynAsWritten(data, ids[0], value)
            case None => None
            case Some(next) => PointsAsWritten(ids[1..], next, results, create, run, check)
          else Some(Result.Err((Error("002", "assert failure " + ids[0]), results)))
        case Err(_) => Some(Result.Err((Error("001", "run failure " + ids[0]), results)))
  }

  /** From a context without "dyn", the loop as written aborts exactly when
      its first point passes, and otherwise ends as the corrected loop. */
  lemma AbortsAtFirstPass<P>(ids: seq<string>, data: Json, done: seq<(string, PointResult)>,
                             create: Creator<P>, run: P -> PointResult, check: Asserter<P>)
    requires data.Obj? && "dyn" !in data.fields
    ensures PointsAsWritten(ids, data, done, create, run, check).None? <==> FirstPasses(ids, data, create, run, check)
    ensures !FirstPasses(ids, data, create, run, check) ==>
      PointsAsWritten(ids, data, done, create, run, check) == Some(Points(ids, data, done, create, run, check))
  {
  }

  /** `run_case`: the initial render context data is an input. */
  method RunCase<P>(pointIds: seq<string>, initial: Json,
                    create: Creator<P>, run: P -> PointResult, check: Asserter<P>)
    returns (r: CaseResult)
    requires DynWritable(initial)
    ensures r == Points(pointIds, initial, [], create, run, check)
  {
    var renderContext := new RenderContext(initial);
    var results: seq<(string, PointResult)> := [];
    var i := 0;
    while i < |pointIds|
      invariant 0 <= i <= |pointIds|
      invariant DynWritable(renderContext.data)
      invariant Points(pointIds, initial, [], create, run, check) ==
                Points(pointIds[i..], renderContext.data, results, create, run, check)
    {
      assert pointIds[i..][0] == pointIds[i] && pointIds[i..][1..] == pointIds[i + 1..];
      var point := create(pointIds[i], renderContext.data);
      if point.None? {
        return Result.Err((Error("000", "invalid point " + pointIds[i]), []));
      }
      var result := run(point.value);
      results := results + [(pointIds[i], result)];
      match result {
        case Ok(value) =>
          if check(point.value, value) {
            RegisterDynamic(renderContext, pointIds[i], value);
          } else {
            return Result.Err((Error("002", "assert failure " + pointIds[i]), results));
          }
        case Err(_) =>
          return Result.Err((Error("001", "run failure " + pointIds[i]), results));
      }
      i := i + 1;
    }
    return Result.Ok(results);
  }
}
