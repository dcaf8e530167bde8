/** The older task run (`src/task/mod.rs`): one case run per case context,
    joined in case order, and folded into the list of results or a single
    error. */
module LegacyTask {
  import opened Common
  import opened LegacyCase

  /** `join_all` over the deferred case runs: one result per case, in case
      order. */
  function JoinAll<C>(cases: seq<C>, runCase: C -> CaseResult): (r: seq<CaseResult>)
    ensures |r| == |cases|
    ensures forall k | 0 <= k < |cases| :: r[k] == runCase(cases[k])
  {
    if cases == [] then [] else [runCase(cases[0])] + JoinAll(cases[1..], runCase)
  }

  /** `iter().any(|case| !case.is_ok())`. */
  function AnyNotOk(results: seq<CaseResult>): (r: bool)
    ensures r <==> exists k | 0 <= k < |results| :: results[k].Err?
  {
    if results == [] then false
    else if results[0].Err? then true
    else
      assert forall k | 1 <= k < |results| :: results[k] == results[1..][k - 1];
      AnyNotOk(results[1..])
  }

  /** The task result for the joined case results. */
  function Aggregate(results: seq<CaseResult>): (r: Result<seq<CaseResult>, Error>)
    ensures r.Ok? <==> forall k | 0 <= k < |results| :: results[k].Ok?
    ensures r.Ok? ==> r.value == results
    ensures r.Err? ==> r.error == Error("000", "any case failure")
  {
    if AnyNotOk(results) then Result.Err(Error("000", "any case failure")) else Result.Ok(results)
  }

  /** `run_task`: the case contexts (`create_case`) are an input; each gets
      exactly one deferred run, and the runs are joined in order. */
  method RunTask<C>(cases: seq<C>, runCase: C -> CaseResult) returns (r: Result<seq<CaseResult>, Error>)
    ensures r == Aggregate(JoinAll(cases, runCase))
    ensures r.Ok? ==> |r.value| == |cases| && forall k | 0 <= k < |cases| :: r.value[k] == runCase(cases[k])
  {
    var futures: seq<C> := [];
    for i := 0 to |cases|
      invariant futures == cases[..i]
    {
      futures := futures + [cases[i]];
    }
    assert futures == cases;
    var caseValues := JoinAll(futures, runCase);
    if AnyNotOk(caseValues) {
      return Result.Err(Error("000", "any case failure"));
    }
    return Result.Ok(caseValues);
  }
}
