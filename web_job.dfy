/** The task loop of the web revision (`web/src/biz/job.rs`): batches of
    case rows are loaded, run, written to the report store and folded into
    one task state until a batch errs or comes back short. The loader, the
    runner and the report store are the collaborators: the loader and the
    store are given as the replies they make to each call in turn, the
    runner as a function of the batch. */
module WebJob {
  import opened Common

  /** A case row of the data file. */
  type Row = map<string, string>

  /** `TaskState` of this revision; the case assessments it carries are
      never inspected by the loop and stand here as their case ids. */
  datatype JobState = Ok(cases: seq<string>) | Fail(cases: seq<string>) | Err(error: Error)

  /** The loader's reply to load number `i`; once its replies are used up
      the data file is exhausted and every load is empty. */
  function LoadAt(loads: seq<Result<seq<Row>, Error>>, i: nat): Result<seq<Row>, Error>
  {
    if i < |loads| then loads[i] else Result.Ok([])
  }

  /** The store's reply to write number `i`: an error, or none. */
  function WriteAt(writes: seq<Option<Error>>, i: nat): Option<Error>
  {
    if i < |writes| then writes[i] else None
  }

  /** The loop from batch `i` on with the total so far: the loop's result
      (an error of a load or a write, or the total state) and the states of
      the batches handed to the store. */
  function Batches(loads: seq<Result<seq<Row>, Error>>, writes: seq<Option<Error>>, run: seq<Row> -> JobState,
                      size: nat, i: nat, total: JobState): (Result<JobState, Error>, seq<JobState>)
    requires size > 0
    decreases |loads| - i
  {
    var load := LoadAt(loads, i);
    if load.Err? then (Result.Err(load.error), [])
    else
      var state := run(load.value);
      var written := WriteAt(writes, i);
      if written.Some? then (Result.Err(written.value), [state])
      else if state.Err? then (Result.Ok(JobState.Err(state.error)), [state])
      else
        var next := if state.Fail? then JobState.Fail([]) else total;
        if |load.value| < size then (Result.Ok(next), [state])
        else
          var rest := Batches(loads, writes, run, size, i + 1, next);
          (rest.0, [state] + rest.1)
  }

  /** The total after the batches `states`: Fail once any batch failed,
      the starting total otherwise. */
  function Folded(states: seq<JobState>, total: JobState): (r: JobState)
    ensures (exists k | 0 <= k < |states| :: states[k].Fail?) ==> r == JobState.Fail([])
    ensures (forall k | 0 <= k < |states| :: !states[k].Fail?) ==> r == total
  {
    if exists k | 0 <= k < |states| :: states[k].Fail? then JobState.Fail([]) else total
  }

  /** Batch `n` loaded and ran to `state`. */
  predicate Ran(loads: seq<Result<seq<Row>, Error>>, run: seq<Row> -> JobState, n: nat, state: JobState)
  {
    LoadAt(loads, n).Ok? && state == run(LoadAt(loads, n).value)
  }

  /** Batch `n` was stored, did not err and was full, so the loop went on. */
  predicate Passed(loads: seq<Result<seq<Row>, Error>>, writes: seq<Option<Error>>, size: nat, n: nat, state: JobState)
  {
    WriteAt(writes, n).None? && !state.Err? && LoadAt(loads, n).Ok? && |LoadAt(loads, n).value| >= size
  }

  /** What the loop from batch `i` promises about its result `res` and the
      batch states `states` it wrote: every batch it ran was written first,
      in load order; every batch but the last was full and did not err; the
      total is the last batch's error if it erred, else Fail if any batch
      failed, else the starting total, and then the last batch was short;
      an error is that of the last load or the last write. */
  predicate LoopPromise(loads: seq<Result<seq<Row>, Error>>, writes: seq<Option<Error>>, run: seq<Row> -> JobState,
                           size: nat, i: nat, total: JobState, res: Result<JobState, Error>, states: seq<JobState>)
  {
    && (forall k | 0 <= k < |states| :: Ran(loads, run, i + k, states[k]))
    && (forall k | 0 <= k < |states| - 1 :: Passed(loads, writes, size, i + k, states[k]))
    && (res.Ok? ==> |states| > 0 && WriteAt(writes, i + |states| - 1).None?)
    && (res.Ok? && res.value.Err? ==> res.value == states[|states| - 1])
    && (res.Ok? && !res.value.Err? ==>
          !states[|states| - 1].Err? && res.value == Folded(states, total) &&
          |LoadAt(loads, i + |states| - 1).value| < size)
    && (res.Err? && states == [] ==> LoadAt(loads, i).Err? && res.error == LoadAt(loads, i).error)
    && (res.Err? && states != [] ==>
          (LoadAt(loads, i + |states|).Err? && res.error == LoadAt(loads, i + |states|).error) ||
          (WriteAt(writes, i + |states| - 1).Some? && res.error == WriteAt(writes, i + |states| - 1).value))
  }

  /** The loop keeps its promise from any batch on, for a total that is not
      an error (the loop stops at the first error). */
  lemma {:induction false} BatchesSpec(loads: seq<Result<seq<Row>, Error>>, writes: seq<Option<Error>>, run: seq<Row> -> JobState,
                                          size: nat, i: nat, total: JobState)
    requires size > 0 && !total.Err?
    ensures var r := Batches(loads, writes, run, size, i, total);
            LoopPromise(loads, writes, run, size, i, total, r.0, r.1)
    decreases |loads| - i
  {
    var load := LoadAt(loads, i);
    if load.Ok? && WriteAt(writes, i).None? && !run(load.value).Err? && |load.value| >= size {
      var state := run(load.value);
      var next := if state.Fail? then JobState.Fail([]) else total;
      BatchesSpec(loads, writes, run, size, i + 1, next);
      var rest := Batches(loads, writes, run, size, i + 1, next);
      PromiseStep(loads, writes, run, size, i, total, rest.0, rest.1);
    } else if load.Ok? && WriteAt(writes, i).None? && !run(load.value).Err? {
      FoldedStep(run(load.value), [], total);
      assert [run(load.value)] + [] == [run(load.value)];
    }
  }

  /** A full batch that was stored and did not err, in front of the loop
      from the next batch on, keeps the promise. */
  lemma PromiseStep(loads: seq<Result<seq<Row>, Error>>, writes: seq<Option<Error>>, run: seq<Row> -> JobState,
                    size: nat, i: nat, total: JobState, res: Result<JobState, Error>, rest: seq<JobState>)
    requires LoadAt(loads, i).Ok? && WriteAt(writes, i).None?
    requires !run(LoadAt(loads, i).value).Err? && |LoadAt(loads, i).value| >= size
    requires var state := run(LoadAt(loads, i).value);
             LoopPromise(loads, writes, run, size, i + 1, if state.Fail? then JobState.Fail([]) else total, res, rest)
    ensures LoopPromise(loads, writes, run, size, i, total, res, [run(LoadAt(loads, i).value)] + rest)
  {
    var state := run(LoadAt(loads, i).value);
    var states := [state] + rest;
    forall k | 0 <= k < |states|
      ensures Ran(loads, run, i + k, states[k])
      ensures k < |states| - 1 ==> Passed(loads, writes, size, i + k, states[k])
    {
      if k > 0 {
        var j := k - 1;
        assert states[k] == rest[j] && i + k == (i + 1) + j;
      } else {
        assert states[k] == state && i + k == i;
      }
    }
    if rest != [] {
      assert states[|states| - 1] == rest[|rest| - 1];
      assert i + |states| - 1 == (i + 1) + |rest| - 1;
    }
    if res.Ok? && !res.value.Err? {
      FoldedStep(state, rest, total);
    }
  }

  /** One more batch in front: Fail if it failed, the fold of the rest
      otherwise. */
  lemma FoldedStep(state: JobState, states: seq<JobState>, total: JobState)
    ensures Folded([state] + states, total) == Folded(states, if state.Fail? then JobState.Fail([]) else total)
  {
    var all := [state] + states;
    assert all[0] == state;
    assert forall k | 0 <= k < |states| :: all[k + 1] == states[k];
    if exists k | 0 <= k < |states| :: states[k].Fail? {
      var k :| 0 <= k < |states| && states[k].Fail?;
      assert all[k + 1].Fail?;
    }
  }

  /** `run_task0`: the setup (flow file, loader, store and runner; any of
      them may fail), the batch loop, then closing the loader and the
      store. Returns the result and the batch states written. */
  method RunTask0(setup: Option<Error>, loads: seq<Result<seq<Row>, Error>>, writes: seq<Option<Error>>,
                     run: seq<Row> -> JobState, size: nat, close: Option<Error>)
    returns (r: Result<JobState, Error>, written: seq<JobState>)
    requires size > 0
    ensures setup.Some? ==> r == Result.Err(setup.value) && written == []
    ensures setup.None? ==>
      var b := Batches(loads, writes, run, size, 0, JobState.Ok([]));
      written == b.1 &&
      r == if b.0.Err? then b.0 else if close.Some? then Result.Err(close.value) else b.0
  {
    written := [];
    if setup.Some? {
      return Result.Err(setup.value), written;
    }
    var totalTaskState: JobState := JobState.Ok([]);
    var i := 0;
    ghost var goal := Batches(loads, writes, run, size, 0, totalTaskState);
    assert written + goal.1 == goal.1;
    while true
      invariant i <= |loads|
      invariant goal == var rest := Batches(loads, writes, run, size, i, totalTaskState);
                        (rest.0, written + rest.1)
      decreases |loads| - i
    {
      ghost var cur := Batches(loads, writes, run, size, i, totalTaskState);
      var data := LoadAt(loads, i);
      if data.Err? {
        assert cur == (Result.Err(data.error), []);
        assert written + [] == written;
        return Result.Err(data.error), written;
      }
      var dataLen := |data.value|;
      var taskAssess := run(data.value);
      ghost var before := written;
      written := written + [taskAssess];
      var stored := WriteAt(writes, i);
      if stored.Some? {
        assert cur == (Result.Err(stored.value), [taskAssess]);
        return Result.Err(stored.value), written;
      }
      match taskAssess {
        case Err(e) =>
          totalTaskState := JobState.Err(e);
          assert cur == (Result.Ok(totalTaskState), [taskAssess]);
          assert goal == (Result.Ok(totalTaskState), written);
          break;
        case Fail(_) =>
          totalTaskState := JobState.Fail([]);
        case Ok(_) =>
      }
      if dataLen < size {
        assert cur == (Result.Ok(totalTaskState), [taskAssess]);
        assert goal == (Result.Ok(totalTaskState), written);
        break;
      }
      ghost var rest := Batches(loads, writes, run, size, i + 1, totalTaskState);
      assert cur == (rest.0, [taskAssess] + rest.1);
      assert written + rest.1 == before + ([taskAssess] + rest.1);
      i := i + 1;
    }
    if close.Some? {
      return Result.Err(close.value), written;
    }
    return Result.Ok(totalTaskState), written;
  }

  /** `run_task`: an error of the loop becomes an Err task state. */
  function RunTask(rt: Result<JobState, Error>): (s: JobState)
    ensures rt.Err? ==> s == JobState.Err(rt.error)
    ensures rt.Ok? ==> s == rt.value
  {
    match rt
    case Ok(ts) => ts
    case Err(e) => JobState.Err(e)
  }

  /** A task whose batches all load, store and pass ends Ok. */
  lemma {:induction false} AllPassingEndsOk(loads: seq<Result<seq<Row>, Error>>, writes: seq<Option<Error>>,
                                                run: seq<Row> -> JobState, size: nat)
    requires size > 0
    requires forall k | 0 <= k < |loads| :: loads[k].Ok? && run(loads[k].value).Ok?
    requires forall k | 0 <= k < |writes| :: writes[k].None?
    requires run([]).Ok?
    ensures Batches(loads, writes, run, size, 0, JobState.Ok([])).0 == Result.Ok(JobState.Ok([]))
  {
    BatchesSpec(loads, writes, run, size, 0, JobState.Ok([]));
    var states := Batches(loads, writes, run, size, 0, JobState.Ok([])).1;
    assert forall k | 0 <= k < |states| :: states[k].Ok?;
  }

  // ---------------------------------------------------------------- job

  /** An entry of the job directory as its listing yields it: an error, or
      a path that may name a directory. */
  datatype DirEntry = EntryErr(error: Error) | Entry(path: string, isDir: bool)

  /** The task directories of a listing, in listing order: entries that
      err or are not directories are skipped. */
  function TaskDirs(entries: seq<DirEntry>): (r: seq<string>)
    ensures |r| <= |entries|
  {
    if entries == [] then []
    else (if entries[0].Entry? && entries[0].isDir then [entries[0].path] else []) + TaskDirs(entries[1..])
  }

  /** The task directories are exactly the listing's directory entries. */
  lemma {:induction false} TaskDirsMembers(entries: seq<DirEntry>, p: string)
    ensures p in TaskDirs(entries) <==> Entry(p, true) in entries
    decreases |entries|
  {
    if entries != [] {
      TaskDirsMembers(entries[1..], p);
      assert Entry(p, true) in entries <==> Entry(p, true) == entries[0] || Entry(p, true) in entries[1..];
    }
  }

  /** One more entry at the end of a listing adds its path exactly when it
      is a directory. */
  lemma {:induction false} TaskDirsSnoc(entries: seq<DirEntry>, e: DirEntry)
    ensures TaskDirs(entries + [e]) == TaskDirs(entries) + (if e.Entry? && e.isDir then [e.path] else [])
    decreases |entries|
  {
    var tail: seq<string> := if e.Entry? && e.isDir then [e.path] else [];
    if entries == [] {
      assert entries + [e] == [e];
      assert [e][1..] == [];
      assert TaskDirs([e]) == tail + TaskDirs([]);
    } else {
      var x := entries[0];
      var head: seq<string> := if x.Entry? && x.isDir then [x.path] else [];
      assert (entries + [e])[0] == x;
      assert (entries + [e])[1..] == entries[1..] + [e];
      calc {
        TaskDirs(entries + [e]);
        head + TaskDirs(entries[1..] + [e]);
        { TaskDirsSnoc(entries[1..], e); }
        head + (TaskDirs(entries[1..]) + tail);
        (head + TaskDirs(entries[1..])) + tail;
        TaskDirs(entries) + tail;
      }
    }
  }

  /** `run`: the job directory's listing is an input, `None` when it cannot
      be opened (the source unwraps it, so the program aborts, and so does
      this result). Every task directory is run with `runTask`, the state
      `run_task` gives it, and the states come back in listing order. */
  method RunJob(listing: Option<seq<DirEntry>>, runTask: string -> JobState) returns (r: Option<seq<JobState>>)
    ensures r.None? <==> listing.None?
    ensures listing.Some? ==> |r.value| == |TaskDirs(listing.value)|
    ensures listing.Some? ==> forall k | 0 <= k < |r.value| :: r.value[k] == runTask(TaskDirs(listing.value)[k])
  {
    if listing.None? {
      return None;
    }
    var entries := listing.value;
    var states: seq<JobState> := [];
    var i := 0;
    while i < |entries|
      invariant 0 <= i <= |entries|
      invariant |states| == |TaskDirs(entries[..i])|
      invariant forall k | 0 <= k < |states| :: states[k] == runTask(TaskDirs(entries[..i])[k])
    {
      var entry := entries[i];
      TaskDirsSnoc(entries[..i], entry);
      assert entries[..i + 1] == entries[..i] + [entry];
      if entry.Entry? && entry.isDir {
        states := states + [runTask(entry.path)];
      }
      i := i + 1;
    }
    assert entries[..i] == entries;
    return Some(states);
  }
}
