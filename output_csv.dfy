/** The CSV assessment reporter of the engine revision
    (`output/src/report/csv.rs`): one header row naming three columns per
    step of the flow, then one row per case assessment. The file and the
    writer are modelled by the list of records written. */
module OutputCsv {
  import opened Common
  import opened JsonValue
  import opened Chord
  import opened TaskEnv

  /** The number of cells of a row for `n` step ids. */
  function HeadLen(n: nat): nat
  {
    4 + 3 * n + 1
  }

  /** The header for the step ids `sids`: the case columns, three columns
      per step id in order, and the column of the last step's value. */
  predicate HeadLayout(head: seq<string>, sids: seq<string>)
  {
    && |head| == HeadLen(|sids|)
    && head[..4] == ["case_state", "case_info", "case_start", "case_end"]
    && (forall j | 0 <= j < |sids| ::
          head[4 + 3 * j] == sids[j] + "_state" && head[4 + 3 * j + 1] == sids[j] + "_start" && head[4 + 3 * j + 2] == sids[j] + "_end")
    && head[|head| - 1] == "last_step_info"
  }

  /** The header names the cells a step writes: the column group at which
      a step's cells are put is headed by that step's id. */
  lemma HeadNamesStepCells(head: seq<string>, sids: seq<string>, s: string)
    requires HeadLayout(head, sids) && s in sids
    ensures var pos := 4 + 3 * IndexOf(sids, s);
            pos + 2 < |head| - 1 &&
            head[pos] == s + "_state" && head[pos + 1] == s + "_start" && head[pos + 2] == s + "_end"
  {
  }

  /** `create_head`. */
  method CreateHead(sids: seq<string>) returns (head: seq<string>)
    ensures HeadLayout(head, sids)
  {
    head := ["case_state", "case_info", "case_start", "case_end"];
    var i := 0;
    while i < |sids|
      invariant 0 <= i <= |sids|
      invariant |head| == 4 + 3 * i
      invariant head[..4] == ["case_state", "case_info", "case_start", "case_end"]
      invariant forall j | 0 <= j < i ::
        head[4 + 3 * j] == sids[j] + "_state" && head[4 + 3 * j + 1] == sids[j] + "_start" && head[4 + 3 * j + 2] == sids[j] + "_end"
    {
      head := head + [sids[i] + "_state", sids[i] + "_start", sids[i] + "_end"];
      i := i + 1;
    }
    head := head + ["last_step_info"];
  }

  /** The stage step lists of `stageIds`, concatenated in stage order. */
  function StepsOf(flow: Flow, stageIds: seq<string>): (r: seq<string>)
    requires forall s | s in stageIds :: s in flow.stages
    ensures forall sid :: sid in r <==> exists k | 0 <= k < |stageIds| :: sid in flow.stages[stageIds[k]].steps
    decreases |stageIds|
  {
    if stageIds == [] then []
    else
      var rest := StepsOf(flow, stageIds[1..]);
      assert forall k | 1 <= k < |stageIds| :: stageIds[k] == stageIds[1..][k - 1];
      assert forall k | 0 <= k < |stageIds| - 1 :: stageIds[1..][k] == stageIds[k + 1];
      flow.stages[stageIds[0]].steps + rest
  }

  /** The step id list of `Reporter::new`: every stage's step ids, in stage
      order; a step of a stage is listed, and only those. */
  function StepIdList(flow: Flow): (r: seq<string>)
    requires StagesDeclared(flow)
    ensures forall sid :: sid in r <==> exists k | 0 <= k < |flow.stageIds| :: sid in flow.stages[flow.stageIds[k]].steps
  {
    StepsOf(flow, flow.stageIds)
  }

  /** Appending a stage appends its steps to the list. */
  lemma {:induction false} StepsOfAppend(flow: Flow, stageIds: seq<string>, last: string)
    requires forall s | s in stageIds :: s in flow.stages
    requires last in flow.stages
    ensures StepsOf(flow, stageIds + [last]) == StepsOf(flow, stageIds) + flow.stages[last].steps
    decreases |stageIds|
  {
    if stageIds == [] {
      assert StepsOf(flow, [last]) == flow.stages[last].steps + StepsOf(flow, []);
    } else {
      assert (stageIds + [last])[1..] == stageIds[1..] + [last];
      StepsOfAppend(flow, stageIds[1..], last);
    }
  }

  /** The cell letter of a tri-state outcome: "O", "E" or "F". */
  function Letter(ok: bool, err: bool): string
  {
    if ok then "O" else if err then "E" else "F"
  }

  function CaseMark(s: CaseState): (m: string)
    ensures s.Ok? <==> m == "O"
    ensures s.Err? <==> m == "E"
    ensures s.Fail? <==> m == "F"
  {
    Letter(s.Ok?, s.Err?)
  }

  function StepMark(s: StepState): (m: string)
    ensures s.Ok? <==> m == "O"
    ensures s.Err? <==> m == "E"
    ensures s.Fail? <==> m == "F"
  {
    Letter(s.Ok?, s.Err?)
  }

  /** The steps of a case: those of Ok and Fail, none for Err. */
  function CaseSteps(s: CaseState): (r: seq<StepAssess>)
    ensures s.Err? ==> r == []
    ensures !s.Err? ==> r == s.steps
  {
    if s.Err? then [] else s.steps
  }

  /** Every step of the case appears in the step id list (the source
      unwraps the position of each). */
  predicate StepsListed(ca: CaseAssess, sids: seq<string>)
  {
    forall k | 0 <= k < |CaseSteps(ca.state)| :: CaseSteps(ca.state)[k].id.step in sids
  }

  /** `position`: the first index of `s` in `sids`. */
  function IndexOf(sids: seq<string>, s: string): (i: nat)
    requires s in sids
    ensures i < |sids| && sids[i] == s
  {
    if sids[0] == s then 0 else 1 + IndexOf(sids[1..], s)
  }

  /** `IndexOf` is the first position of the id. */
  lemma {:induction false} IndexOfFirst(sids: seq<string>, s: string)
    requires s in sids
    ensures forall k | 0 <= k < IndexOf(sids, s) :: sids[k] != s
  {
    if sids[0] != s {
      IndexOfFirst(sids[1..], s);
      assert forall k | 1 <= k < IndexOf(sids, s) :: sids[k] == sids[1..][k - 1];
    }
  }

  /** The index of the step whose cells end up in column group `j`: the
      last of `steps` whose id is first listed at `j`, since later steps
      overwrite; -1 when no step ran under that column group. */
  function LastAt(steps: seq<StepAssess>, sids: seq<string>, j: nat): (r: int)
    requires forall k | 0 <= k < |steps| :: steps[k].id.step in sids
    ensures -1 <= r < |steps|
    ensures r == -1 ==> forall k | 0 <= k < |steps| :: IndexOf(sids, steps[k].id.step) != j
    ensures r >= 0 ==> IndexOf(sids, steps[r].id.step) == j
    ensures forall k | r < k < |steps| :: IndexOf(sids, steps[k].id.step) != j
  {
    if steps == [] then -1
    else
      var n := |steps| - 1;
      if IndexOf(sids, steps[n].id.step) == j then n
      else
        assert forall k | 0 <= k < n :: steps[..n][k] == steps[k];
        LastAt(steps[..n], sids, j)
  }

  /** Cell `p` of column group `j`: the state mark, start and end of the
      step placed there, or "" for a step that did not run. */
  function Slot(steps: seq<StepAssess>, sids: seq<string>, fmt: Time -> string, j: nat, p: nat): string
    requires forall k | 0 <= k < |steps| :: steps[k].id.step in sids
    requires p < 3
  {
    var k := LastAt(steps, sids, j);
    if k < 0 then "" else [StepMark(steps[k].state), fmt(steps[k].start), fmt(steps[k].end)][p]
  }

  /** The last column of a row for step `a`: its value (a string raw,
      anything else as JSON text) or its error text. */
  function LastInfo(a: StepAssess, toText: Json -> string, errText: Error -> string): (r: string)
    ensures a.state.Err? ==> r == errText(a.state.error)
    ensures !a.state.Err? && a.state.value.Str? ==> r == a.state.value.s
    ensures !a.state.Err? && !a.state.value.Str? ==> r == toText(a.state.value)
  {
    match a.state
    case Err(e) => errText(e)
    case _ => if a.state.value.Str? then a.state.value.s else toText(a.state.value)
  }

  /** The cells of the step columns, three per step id, after `steps` ran
      in order. */
  function Slots(steps: seq<StepAssess>, sids: seq<string>, fmt: Time -> string): (r: seq<string>)
    requires forall k | 0 <= k < |steps| :: steps[k].id.step in sids
    ensures |r| == 3 * |sids|
  {
    seq(3 * |sids|, c requires 0 <= c < 3 * |sids| => Slot(steps, sids, fmt, c / 3, c % 3))
  }

  /** One more step takes over the cells of its own column group and leaves
      the others as they were. */
  lemma SlotStep(steps: seq<StepAssess>, sids: seq<string>, fmt: Time -> string, a: StepAssess, j: nat, p: nat)
    requires forall k | 0 <= k < |steps| :: steps[k].id.step in sids
    requires a.id.step in sids
    requires p < 3
    ensures Slot(steps + [a], sids, fmt, j, p) ==
            if j == IndexOf(sids, a.id.step) then [StepMark(a.state), fmt(a.start), fmt(a.end)][p]
            else Slot(steps, sids, fmt, j, p)
  {
    var more := steps + [a];
    assert more[..|steps|] == steps;
    assert more[|steps|] == a;
  }

  /** One more step overwrites the three cells of its column group and no
      others. */
  lemma SlotsStep(steps: seq<StepAssess>, sids: seq<string>, fmt: Time -> string, a: StepAssess)
    requires forall k | 0 <= k < |steps| :: steps[k].id.step in sids
    requires a.id.step in sids
    ensures var pos := 3 * IndexOf(sids, a.id.step);
            var before := Slots(steps, sids, fmt);
            Slots(steps + [a], sids, fmt) == before[..pos] + [StepMark(a.state), fmt(a.start), fmt(a.end)] + before[pos + 3..]
  {
    var j := IndexOf(sids, a.id.step);
    var pv := [StepMark(a.state), fmt(a.start), fmt(a.end)];
    var before := Slots(steps, sids, fmt);
    var after := Slots(steps + [a], sids, fmt);
    var pos := 3 * j;
    forall c | 0 <= c < |after| ensures after[c] == if pos <= c < pos + |pv| then pv[c - pos] else before[c] {
      SlotsCell(steps, sids, fmt, a, c);
    }
    Splice(before, pos, pv, after);
    assert after == before[..pos] + pv + before[pos + |pv|..];
  }

  /** Cell `c` of the step columns after one more step: the new step's
      cell inside its own column group, the old cell elsewhere. */
  lemma SlotsCell(steps: seq<StepAssess>, sids: seq<string>, fmt: Time -> string, a: StepAssess, c: nat)
    requires forall k | 0 <= k < |steps| :: steps[k].id.step in sids
    requires a.id.step in sids
    requires c < 3 * |sids|
    ensures var j := IndexOf(sids, a.id.step);
            Slots(steps + [a], sids, fmt)[c] ==
              if 3 * j <= c < 3 * j + 3 then [StepMark(a.state), fmt(a.start), fmt(a.end)][c - 3 * j]
              else Slots(steps, sids, fmt)[c]
  {
    SlotStep(steps, sids, fmt, a, c / 3, c % 3);
    GroupOf(c, IndexOf(sids, a.id.step));
  }

  /** A sequence that agrees with `before` except on the cells from `pos`
      on, which hold `pv`, is `before` with `pv` spliced in. */
  lemma Splice<T>(before: seq<T>, pos: nat, pv: seq<T>, after: seq<T>)
    requires pos + |pv| <= |before| == |after|
    requires forall c | 0 <= c < |after| :: after[c] == if pos <= c < pos + |pv| then pv[c - pos] else before[c]
    ensures after == before[..pos] + pv + before[pos + |pv|..]
  {
    var want := before[..pos] + pv + before[pos + |pv|..];
    forall c | 0 <= c < |after| ensures after[c] == want[c] {
      if c >= pos + |pv| {
        assert want[c] == before[pos + |pv|..][c - pos - |pv|];
      }
    }
  }

  /** Cell `c` is in column group `j` exactly when it lies among the three
      cells from `3 * j` on, and is then cell `c - 3 * j` of the group. */
  lemma GroupOf(c: nat, j: nat)
    ensures c / 3 == j <==> 3 * j <= c < 3 * j + 3
    ensures c / 3 == j ==> c % 3 == c - 3 * j
  {
  }

  /** The cells `to_value_vec` fills before its last column: the case mark,
      the error text of an Err case, the case times, the step columns after
      `steps`, and an empty last cell. */
  function Filled(ca: CaseAssess, sids: seq<string>, fmt: Time -> string, errText: Error -> string, steps: seq<StepAssess>)
    : (r: seq<string>)
    requires forall k | 0 <= k < |steps| :: steps[k].id.step in sids
    ensures |r| == HeadLen(|sids|)
  {
    [CaseMark(ca.state), if ca.state.Err? then errText(ca.state.error) else "", fmt(ca.start), fmt(ca.end)] +
    Slots(steps, sids, fmt) + [""]
  }

  /** Before any step, every step column is empty. */
  lemma FilledEmpty(ca: CaseAssess, sids: seq<string>, fmt: Time -> string, errText: Error -> string, cells: seq<string>)
    requires |cells| == HeadLen(|sids|)
    requires cells[0] == CaseMark(ca.state)
    requires cells[1] == (if ca.state.Err? then errText(ca.state.error) else "")
    requires cells[2] == fmt(ca.start) && cells[3] == fmt(ca.end)
    requires forall c | 4 <= c < |cells| :: cells[c] == ""
    ensures cells == Filled(ca, sids, fmt, errText, [])
  {
    var want := Filled(ca, sids, fmt, errText, []);
    forall c | 0 <= c < |cells| ensures cells[c] == want[c] {
      if 4 <= c < |cells| - 1 {
        assert want[c] == Slots([], sids, fmt)[c - 4];
      }
    }
  }

  /** One more step overwrites the three cells of its column group. */
  lemma FilledStep(ca: CaseAssess, sids: seq<string>, fmt: Time -> string, errText: Error -> string, steps: seq<StepAssess>, a: StepAssess)
    requires forall k | 0 <= k < |steps| :: steps[k].id.step in sids
    requires a.id.step in sids
    ensures var pos := 4 + 3 * IndexOf(sids, a.id.step);
            var before := Filled(ca, sids, fmt, errText, steps);
            Filled(ca, sids, fmt, errText, steps + [a]) == before[..pos] + [StepMark(a.state), fmt(a.start), fmt(a.end)] + before[pos + 3..]
  {
    SlotsStep(steps, sids, fmt, a);
  }

  /** The cell loop of `to_value_vec`: writes the cells `pv` from `pos` on. */
  method PutCells(cells: array<string>, pos: nat, pv: seq<string>)
    requires pos + |pv| <= cells.Length
    modifies cells
    ensures cells[..] == old(cells[..])[..pos] + pv + old(cells[..])[pos + |pv|..]
  {
    ghost var before := cells[..];
    for p := 0 to |pv|
      invariant forall c | 0 <= c < cells.Length :: cells[c] == if pos <= c < pos + p then pv[c - pos] else before[c]
    {
      cells[pos + p] := pv[p];
    }
    ghost var want := before[..pos] + pv + before[pos + |pv|..];
    forall c | 0 <= c < cells.Length ensures cells[c] == want[c] {
      if c < pos {
        assert want[c] == before[c];
      } else if c < pos + |pv| {
        assert want[c] == pv[c - pos];
      } else {
        assert want[c] == before[pos + |pv|..][c - pos - |pv|];
      }
    }
    assert cells[..] == want;
  }

  /** The first part of `to_value_vec`: an empty row of the header's width
      with the case columns set. */
  method CaseCells(ca: CaseAssess, sids: seq<string>, fmt: Time -> string, errText: Error -> string)
    returns (cells: array<string>)
    ensures fresh(cells) && cells[..] == Filled(ca, sids, fmt, errText, [])
  {
    var headLen := 4 + |sids| * 3 + 1;
    cells := new string[headLen](_ => "");
    match ca.state {
      case Ok(_) =>
        cells[0] := "O";
        cells[1] := "";
      case Err(e) =>
        cells[0] := "E";
        cells[1] := errText(e);
      case Fail(_) =>
        cells[0] := "F";
        cells[1] := "";
    }
    cells[2] := fmt(ca.start);
    cells[3] := fmt(ca.end);
    assert forall c | 4 <= c < cells.Length :: cells[c] == "";
    FilledEmpty(ca, sids, fmt, errText, cells[..]);
  }

  /** The cells after the steps ran one after the other, each writing its
      three cells over its column group. */
  function Written(ca: CaseAssess, sids: seq<string>, fmt: Time -> string, errText: Error -> string, steps: seq<StepAssess>)
    : (r: seq<string>)
    requires forall k | 0 <= k < |steps| :: steps[k].id.step in sids
    ensures |r| == HeadLen(|sids|)
  {
    if steps == [] then Filled(ca, sids, fmt, errText, [])
    else
      var n := |steps| - 1;
      var a := steps[n];
      var pos := 4 + 3 * IndexOf(sids, a.id.step);
      var before := Written(ca, sids, fmt, errText, steps[..n]);
      before[..pos] + [StepMark(a.state), fmt(a.start), fmt(a.end)] + before[pos + 3..]
  }

  /** Writing the steps in order leaves each column group to the last step
      that ran under it. */
  lemma {:induction false} WrittenIsFilled(ca: CaseAssess, sids: seq<string>, fmt: Time -> string, errText: Error -> string, steps: seq<StepAssess>)
    requires forall k | 0 <= k < |steps| :: steps[k].id.step in sids
    ensures Written(ca, sids, fmt, errText, steps) == Filled(ca, sids, fmt, errText, steps)
    decreases |steps|
  {
    if steps != [] {
      var n := |steps| - 1;
      WrittenIsFilled(ca, sids, fmt, errText, steps[..n]);
      assert steps == steps[..n] + [steps[n]];
      FilledStep(ca, sids, fmt, errText, steps[..n], steps[n]);
    }
  }

  /** One turn of the cell loop: step `i` writes its column group over
      the cells of the steps before it. */
  lemma WrittenNext(ca: CaseAssess, sids: seq<string>, fmt: Time -> string, errText: Error -> string, steps: seq<StepAssess>, i: nat,
                    before: seq<string>, after: seq<string>)
    requires forall k | 0 <= k < |steps| :: steps[k].id.step in sids
    requires i < |steps|
    requires before == Written(ca, sids, fmt, errText, steps[..i])
    requires var a := steps[i];
             var pos := 4 + 3 * IndexOf(sids, a.id.step);
             after == before[..pos] + [StepMark(a.state), fmt(a.start), fmt(a.end)] + before[pos + 3..]
    ensures after == Written(ca, sids, fmt, errText, steps[..i + 1])
  {
    assert steps[..i + 1][..i] == steps[..i];
  }

  /** One turn of the cell loop of `to_value_vec`: step `i` writes its
      mark and times at its column group. */
  method WriteStep(cells: array<string>, ca: CaseAssess, sids: seq<string>, fmt: Time -> string, errText: Error -> string,
                   steps: seq<StepAssess>, i: nat)
    requires forall k | 0 <= k < |steps| :: steps[k].id.step in sids
    requires i < |steps| && cells.Length == HeadLen(|sids|)
    requires cells[..] == Written(ca, sids, fmt, errText, steps[..i])
    modifies cells
    ensures cells[..] == Written(ca, sids, fmt, errText, steps[..i + 1])
  {
    var a := steps[i];
    var pv := [StepMark(a.state), fmt(a.start), fmt(a.end)];
    var pai := IndexOf(sids, a.id.step);
    var pos := 4 + pai * 3;
    ghost var before := cells[..];
    PutCells(cells, pos, pv);
    WrittenNext(ca, sids, fmt, errText, steps, i, before, cells[..]);
  }

  /** The cells of `to_value_vec` before the last column, with the steps
      overwriting their column groups in run order. */
  method FillCells(ca: CaseAssess, sids: seq<string>, fmt: Time -> string, errText: Error -> string)
    returns (cells: array<string>)
    requires StepsListed(ca, sids)
    ensures fresh(cells) && cells[..] == Written(ca, sids, fmt, errText, CaseSteps(ca.state))
  {
    cells := CaseCells(ca, sids, fmt, errText);
    var steps := CaseSteps(ca.state);
    assert steps[..0] == [];
    var i := 0;
    while i < |steps|
      invariant 0 <= i <= |steps|
      invariant cells.Length == HeadLen(|sids|)
      invariant cells[..] == Written(ca, sids, fmt, errText, steps[..i])
    {
      WriteStep(cells, ca, sids, fmt, errText, steps, i);
      i := i + 1;
    }
    assert steps[..|steps|] == steps;
  }

  /** The row of a case: the filled cells, with the last column holding
      the last step's value or error, empty for a case without steps. */
  function CaseRow(ca: CaseAssess, sids: seq<string>, fmt: Time -> string, toText: Json -> string, errText: Error -> string): (row: seq<string>)
    requires StepsListed(ca, sids)
    ensures |row| == HeadLen(|sids|)
  {
    var steps := CaseSteps(ca.state);
    var cells := Filled(ca, sids, fmt, errText, steps);
    cells[..|cells| - 1] + [if steps == [] then "" else LastInfo(steps[|steps| - 1], toText, errText)]
  }

  /** `to_value_vec` as written: the last column is read from the last
      step, which panics (`None` here) for a case without steps, and so for
      every Err case. */
  method ToValueVecAsWritten(ca: CaseAssess, sids: seq<string>, fmt: Time -> string, toText: Json -> string, errText: Error -> string)
    returns (r: Option<seq<string>>)
    requires StepsListed(ca, sids)
    ensures r.None? <==> CaseSteps(ca.state) == []
    ensures ca.state.Err? ==> r.None?
    ensures r.Some? ==> r.value == CaseRow(ca, sids, fmt, toText, errText)
  {
    var cells := FillCells(ca, sids, fmt, errText);
    var steps := CaseSteps(ca.state);
    WrittenIsFilled(ca, sids, fmt, errText, steps);
    if |steps| == 0 {
      return None;
    }
    ghost var filled := cells[..];
    cells[cells.Length - 1] := LastInfo(steps[|steps| - 1], toText, errText);
    assert cells[..] == filled[..|filled| - 1] + [cells[cells.Length - 1]];
    return Some(cells[..]);
  }

  /** `to_value_vec` with the evident intent: a case without steps (every
      Err case) leaves the last column empty instead of panicking. */
  method ToValueVec(ca: CaseAssess, sids: seq<string>, fmt: Time -> string, toText: Json -> string, errText: Error -> string)
    returns (r: seq<string>)
    requires StepsListed(ca, sids)
    ensures r == CaseRow(ca, sids, fmt, toText, errText)
  {
    var cells := FillCells(ca, sids, fmt, errText);
    var steps := CaseSteps(ca.state);
    WrittenIsFilled(ca, sids, fmt, errText, steps);
    ghost var filled := cells[..];
    assert filled[|filled| - 1] == "";
    if |steps| > 0 {
      cells[cells.Length - 1] := LastInfo(steps[|steps| - 1], toText, errText);
    }
    assert cells[..] == filled[..|filled| - 1] + [cells[cells.Length - 1]];
    return cells[..];
  }

  /** Every row is as wide as the header, and each step that ran last in
      its column group shows its mark and times there. */
  lemma RowLayout(ca: CaseAssess, sids: seq<string>, fmt: Time -> string, toText: Json -> string, errText: Error -> string, k: nat)
    requires StepsListed(ca, sids)
    requires k < |CaseSteps(ca.state)|
    requires var steps := CaseSteps(ca.state);
             forall k2 | k < k2 < |steps| :: IndexOf(sids, steps[k2].id.step) != IndexOf(sids, steps[k].id.step)
    ensures var row := CaseRow(ca, sids, fmt, toText, errText);
            var a := CaseSteps(ca.state)[k];
            var pos := 4 + 3 * IndexOf(sids, a.id.step);
            |row| == HeadLen(|sids|) && row[pos..pos + 3] == [StepMark(a.state), fmt(a.start), fmt(a.end)]
  {
    var steps := CaseSteps(ca.state);
    var a := steps[k];
    var j := IndexOf(sids, a.id.step);
    assert LastAt(steps, sids, j) == k;
    var row := CaseRow(ca, sids, fmt, toText, errText);
    var pos := 4 + 3 * j;
    var cells := [StepMark(a.state), fmt(a.start), fmt(a.end)];
    forall c | pos <= c < pos + 3 ensures row[c] == cells[c - pos] {
      RowCell(ca, sids, fmt, toText, errText, c);
      GroupOf(c - 4, j);
    }
  }

  /** A cell of the step columns of a row is the slot of its column
      group. */
  lemma RowCell(ca: CaseAssess, sids: seq<string>, fmt: Time -> string, toText: Json -> string, errText: Error -> string, c: nat)
    requires StepsListed(ca, sids)
    requires 4 <= c < 4 + 3 * |sids|
    ensures CaseRow(ca, sids, fmt, toText, errText)[c] == Slot(CaseSteps(ca.state), sids, fmt, (c - 4) / 3, (c - 4) % 3)
  {
    var steps := CaseSteps(ca.state);
    var cells := Filled(ca, sids, fmt, errText, steps);
    assert CaseRow(ca, sids, fmt, toText, errText)[c] == cells[c];
    assert cells[c] == Slots(steps, sids, fmt)[c - 4];
  }

  /** A step id that no step of the case ran under leaves its cells empty. */
  lemma UnrunStepCellsEmpty(ca: CaseAssess, sids: seq<string>, fmt: Time -> string, toText: Json -> string, errText: Error -> string, j: nat)
    requires StepsListed(ca, sids)
    requires j < |sids|
    requires forall k | 0 <= k < |CaseSteps(ca.state)| :: CaseSteps(ca.state)[k].id.step != sids[j]
    ensures var row := CaseRow(ca, sids, fmt, toText, errText);
            row[4 + 3 * j..4 + 3 * j + 3] == ["", "", ""]
  {
    var steps := CaseSteps(ca.state);
    assert forall k | 0 <= k < |steps| :: IndexOf(sids, steps[k].id.step) != j;
    var row := CaseRow(ca, sids, fmt, toText, errText);
    var pos := 4 + 3 * j;
    forall c | pos <= c < pos + 3 ensures row[c] == "" {
      RowCell(ca, sids, fmt, toText, errText, c);
      GroupOf(c - 4, j);
    }
  }

  /** The file a report is written to, and the name `end` gives it for a
      final task state. */
  function ResultFile(taskId: TaskId): string
  {
    taskId.taskId + "_result.csv"
  }

  function FinalFile(taskId: TaskId, state: TaskState): (name: string)
    ensures name == taskId.taskId + "_result_" + (if state.Ok? then "O" else if state.Err? then "E" else "F") + ".csv"
  {
    var view := match state
      case Ok => "O"
      case Err(_) => "E"
      case Fail => "F";
    taskId.taskId + "_result_" + view + ".csv"
  }

  /** The final name tells the task state apart: Ok, Err and Fail runs of
      one task end in different files. */
  lemma FinalFileDistinguishesState(taskId: TaskId, s1: TaskState, s2: TaskState)
    requires FinalFile(taskId, s1) == FinalFile(taskId, s2)
    ensures s1.Ok? == s2.Ok? && s1.Err? == s2.Err? && s1.Fail? == s2.Fail?
  {
    var prefix := taskId.taskId + "_result_";
    var n := |prefix|;
    assert FinalFile(taskId, s1)[n] == (if s1.Ok? then 'O' else if s1.Err? then 'E' else 'F');
    assert FinalFile(taskId, s2)[n] == (if s2.Ok? then 'O' else if s2.Err? then 'E' else 'F');
  }

  /** `Reporter`: the step id list of the flow, the task, and the records
      its writer has written. */
  class Reporter {
    const stepIds: seq<string>
    const taskId: TaskId
    var records: seq<seq<string>>

    /** `Reporter::new`, once the report file is open. */
    constructor (flow: Flow, taskId: TaskId)
      requires StagesDeclared(flow)
      ensures stepIds == StepIdList(flow) && this.taskId == taskId && records == []
    {
      stepIds := StepIdList(flow);
      this.taskId := taskId;
      records := [];
    }

    /** `start`: writes the header. */
    method Start()
      modifies this
      ensures |records| == |old(records)| + 1 && records[..|old(records)|] == old(records)
      ensures HeadLayout(records[|records| - 1], stepIds)
    {
      var head := CreateHead(stepIds);
      records := records + [head];
    }

    /** `report`: nothing for an empty batch, otherwise one row per case in
        batch order. */
    method Report(batch: seq<CaseAssess>, fmt: Time -> string, toText: Json -> string, errText: Error -> string)
      requires forall k | 0 <= k < |batch| :: StepsListed(batch[k], stepIds)
      modifies this
      ensures |records| == |old(records)| + |batch| && records[..|old(records)|] == old(records)
      ensures forall k | 0 <= k < |batch| :: records[|old(records)| + k] == CaseRow(batch[k], stepIds, fmt, toText, errText)
    {
      if |batch| == 0 {
        return;
      }
      var i := 0;
      while i < |batch|
        invariant 0 <= i <= |batch|
        invariant |records| == |old(records)| + i && records[..|old(records)|] == old(records)
        invariant forall k | 0 <= k < i :: records[|old(records)| + k] == CaseRow(batch[k], stepIds, fmt, toText, errText)
      {
        var sv := ToValueVec(batch[i], stepIds, fmt, toText, errText);
        records := records + [sv];
        i := i + 1;
      }
    }

    /** `end`: the rename of the report file, from its working name to the
        name carrying the task state. */
    method End(assess: TaskAssess) returns (from: string, to: string)
      ensures from == ResultFile(taskId) && to == FinalFile(taskId, assess.state)
    {
      var view := match assess.state
        case Ok => "O"
        case Err(_) => "E"
        case Fail => "F";
      from := taskId.taskId + "_result.csv";
      to := taskId.taskId + "_result_" + view + ".csv";
    }
  }
}
