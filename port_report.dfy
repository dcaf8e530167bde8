/** The CSV reporter of the port revision (`port/src/report/csv.rs`): a
    header built from the case that ran the most points, then one row per
    case result with an "O"/"X" cell per point run, padding, and three
    cells for the case outcome. The writer is modelled by the list of
    records it writes. */
module PortReport {
  import opened Common
  import opened JsonValue
  import opened CaseRun

  /** `CaseResult` of this revision: an assessed case, or the error that
      kept the case from running. */
  type PortCaseResult = Result<CaseAssessStruct, Error>

  /** The point results of a case result; an Err case has none. */
  function PointResults(cr: PortCaseResult): (r: seq<(string, PointResult)>)
    ensures cr.Err? ==> r == []
    ensures cr.Ok? ==> r == cr.value.results
  {
    match cr
    case Ok(c) => c.results
    case Err(_) => []
  }

  /** A case that stopped on a failed assertion has run that point: its
      result list is not empty (the case loop appends a result before it
      judges it). */
  predicate Judged(cr: PortCaseResult)
  {
    cr.Ok? && cr.value.state.PointFailure? ==> |cr.value.results| > 0
  }

  /** The cell of one point result. */
  function PointMark(pr: PointResult): (m: string)
    ensures pr.Ok? <==> m == "O"
    ensures pr.Err? <==> m == "X"
  {
    match pr
    case Ok(_) => "O"
    case Err(_) => "X"
  }

  /** The three cells after the point columns: outcome mark, case error
      text, and the information of the point that stopped the case. */
  function Outcome(cr: PortCaseResult, toText: Json -> string, errText: Error -> string): (r: seq<string>)
    requires Judged(cr)
    ensures |r| == 3
    ensures r[0] == "O" <==> cr.Ok? && cr.value.state.Ok?
    ensures r[0] == "X" <==> !(cr.Ok? && cr.value.state.Ok?)
    ensures cr.Err? ==> r == ["X", errText(cr.error), ""]
    ensures cr.Ok? && cr.value.state.Ok? ==> r == ["O", "", ""]
    ensures cr.Ok? && cr.value.state.PointError? ==> r == ["X", "", errText(cr.value.state.error)]
    ensures cr.Ok? && cr.value.state.PointFailure? ==>
      var last := cr.value.results[|cr.value.results| - 1].1;
      r == ["X", "", if last.Ok? then toText(last.value) else errText(last.error)]
  {
    match cr
    case Err(e) => ["X", errText(e), ""]
    case Ok(c) =>
      match c.state
      case Ok => ["O", "", ""]
      case PointError(e) => ["X", "", errText(e)]
      case PointFailure =>
        var last := c.results[|c.results| - 1].1;
        ["X", "", match last { case Ok(v) => toText(v) case Err(e) => errText(e) }]
  }

  /** The row of a case for a header of `headLen` cells: one mark per point
      run, in run order, padding up to `headLen - 3` cells, then the
      outcome cells. */
  function PortRow(cr: PortCaseResult, headLen: nat, toText: Json -> string, errText: Error -> string): (row: seq<string>)
    requires Judged(cr) && headLen >= 3
    ensures var n := |PointResults(cr)|;
            |row| == (if n < headLen - 3 then headLen - 3 else n) + 3
    ensures forall k | 0 <= k < |PointResults(cr)| :: row[k] == PointMark(PointResults(cr)[k].1)
    ensures forall k | |PointResults(cr)| <= k < headLen - 3 :: row[k] == ""
    ensures row[|row| - 3..] == Outcome(cr, toText, errText)
  {
    var prs := PointResults(cr);
    var marks := seq(|prs|, k requires 0 <= k < |prs| => PointMark(prs[k].1));
    var pad := if |prs| < headLen - 3 then seq(headLen - 3 - |prs|, _ => "") else [];
    marks + pad + Outcome(cr, toText, errText)
  }

  /** The padding loop of `to_value_vec`: `missing` empty cells appended. */
  method Pad(cells: seq<string>, missing: nat) returns (r: seq<string>)
    ensures r == cells + seq(missing, _ => "")
  {
    r := cells;
    for i := 0 to missing
      invariant r == cells + seq(i, _ => "")
    {
      assert seq(i + 1, _ => "") == seq(i, _ => "") + [""];
      r := r + [""];
    }
  }

  /** `to_value_vec`: the marks, the padding loop, then the outcome cells. */
  method ToValueVec(cr: PortCaseResult, headLen: nat, toText: Json -> string, errText: Error -> string)
    returns (cells: seq<string>)
    requires Judged(cr) && headLen >= 3
    ensures cells == PortRow(cr, headLen, toText, errText)
  {
    var prs := PointResults(cr);
    cells := seq(|prs|, k requires 0 <= k < |prs| => PointMark(prs[k].1));
    if |cells| < headLen - 3 {
      cells := Pad(cells, headLen - 3 - |cells|);
    } else {
      assert cells + [] == cells;
    }
    cells := cells + Outcome(cr, toText, errText);
  }

  /** The number of points a case ran, as `to_head_vec` compares them. */
  function Ran(cr: PortCaseResult): nat
  {
    |PointResults(cr)|
  }

  /** `max_by` on the number of points run: a case with the most points,
      the last one among equals. */
  function LastLongest(crs: seq<PortCaseResult>): (i: nat)
    requires |crs| > 0
    ensures i < |crs|
    ensures forall k | 0 <= k < |crs| :: Ran(crs[k]) <= Ran(crs[i])
    ensures forall k | i < k < |crs| :: Ran(crs[k]) < Ran(crs[i])
    decreases |crs|
  {
    if |crs| == 1 then 0
    else
      var n := |crs| - 1;
      var best := LastLongest(crs[..n]);
      assert forall k | 0 <= k < n :: crs[..n][k] == crs[k];
      if Ran(crs[n]) >= Ran(crs[best]) then n else best
  }

  /** `to_head_vec`: the point ids of the longest case in run order, then
      the three outcome columns. */
  function HeadVec(crs: seq<PortCaseResult>): (head: seq<string>)
    requires |crs| > 0
    ensures var prs := PointResults(crs[LastLongest(crs)]);
            |head| == |prs| + 3 &&
            (forall k | 0 <= k < |prs| :: head[k] == prs[k].0) &&
            head[|prs|..] == ["caseResult", "caseInfo", "lastPointInfo"]
  {
    var prs := PointResults(crs[LastLongest(crs)]);
    seq(|prs|, k requires 0 <= k < |prs| => prs[k].0) + ["caseResult", "caseInfo", "lastPointInfo"]
  }

  /** No case ran more points than the header has point columns, so every
      row is exactly as wide as the header. */
  lemma RowsFitHead(crs: seq<PortCaseResult>, toText: Json -> string, errText: Error -> string)
    requires |crs| > 0
    requires forall k | 0 <= k < |crs| :: Judged(crs[k])
    ensures forall k | 0 <= k < |crs| :: |PortRow(crs[k], |HeadVec(crs)|, toText, errText)| == |HeadVec(crs)|
  {
    var headLen := |HeadVec(crs)|;
    forall k | 0 <= k < |crs| ensures |PortRow(crs[k], headLen, toText, errText)| == headLen {
      assert Ran(crs[k]) <= Ran(crs[LastLongest(crs)]);
    }
  }

  /** The case results of the task result's pairs, in order. */
  function CaseResults(pairs: seq<(nat, PortCaseResult)>): seq<PortCaseResult>
  {
    seq(|pairs|, k requires 0 <= k < |pairs| => pairs[k].1)
  }

  /** The row loop of `report`: one row per case result, in order. */
  method Rows(crs: seq<PortCaseResult>, headLen: nat, toText: Json -> string, errText: Error -> string)
    returns (rows: seq<seq<string>>)
    requires headLen >= 3
    requires forall k | 0 <= k < |crs| :: Judged(crs[k])
    ensures |rows| == |crs|
    ensures forall k | 0 <= k < |crs| :: rows[k] == PortRow(crs[k], headLen, toText, errText)
  {
    rows := [];
    for i := 0 to |crs|
      invariant |rows| == i
      invariant forall k | 0 <= k < i :: rows[k] == PortRow(crs[k], headLen, toText, errText)
    {
      var sv := ToValueVec(crs[i], headLen, toText, errText);
      rows := rows + [sv];
    }
  }

  /** The writes of `report` once there are cases: the header, one row
      per case in order, then the flush, whose error is returned. */
  method WriteRecords(pairs: seq<(nat, PortCaseResult)>, flush: Option<Error>, toText: Json -> string, errText: Error -> string)
    returns (r: Result<seq<seq<string>>, Error>)
    requires pairs != [] && forall k | 0 <= k < |pairs| :: Judged(pairs[k].1)
    ensures flush.Some? ==> r == Result.Err(flush.value)
    ensures flush.None? ==>
      var crs := CaseResults(pairs);
      r.Ok? && |r.value| == |crs| + 1 && r.value[0] == HeadVec(crs) &&
      forall k | 0 <= k < |crs| :: r.value[k + 1] == PortRow(crs[k], |HeadVec(crs)|, toText, errText)
  {
    var crs := CaseResults(pairs);
    var head := HeadVec(crs);
    var rows := Rows(crs, |head|, toText, errText);
    if flush.Some? {
      return Result.Err(flush.value);
    }
    var records := [head] + rows;
    assert forall k | 0 <= k < |crs| :: records[k + 1] == rows[k];
    return Result.Ok(records);
  }

  /** `report`: the path error first; an Err task result or one without
      cases writes nothing; otherwise the header and one row per case in
      order, then the flush, whose error is returned. */
  method Report(taskResult: Result<seq<(nat, PortCaseResult)>, Error>, pathOk: bool, flush: Option<Error>,
                toText: Json -> string, errText: Error -> string)
    returns (r: Result<seq<seq<string>>, Error>)
    requires taskResult.Ok? ==> forall k | 0 <= k < |taskResult.value| :: Judged(taskResult.value[k].1)
    ensures !pathOk ==> r == Result.Err(Error("000", "path error"))
    ensures pathOk && (taskResult.Err? || taskResult.value == []) ==> r == Result.Ok([])
    ensures pathOk && taskResult.Ok? && taskResult.value != [] && flush.Some? ==> r == Result.Err(flush.value)
    ensures pathOk && taskResult.Ok? && taskResult.value != [] && flush.None? ==>
      var crs := CaseResults(taskResult.value);
      r.Ok? && |r.value| == |crs| + 1 && r.value[0] == HeadVec(crs) &&
      forall k | 0 <= k < |crs| :: r.value[k + 1] == PortRow(crs[k], |HeadVec(crs)|, toText, errText)
  {
    if !pathOk {
      return Result.Err(Error("000", "path error"));
    }
    if taskResult.Err? || taskResult.value == [] {
      return Result.Ok([]);
    }
    r := WriteRecords(taskResult.value, flush, toText, errText);
  }
}
