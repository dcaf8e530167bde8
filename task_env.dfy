/** What the task runner of the engine revision (`flow/src/flow/task/mod.rs`)
    talks to, as values: the case loader and the assessment reporter as
    queues of prepared replies with a log of the calls made on them, and the
    engine's opaque services (action factory, case execution, case filter,
    template rendering, the stage timer). */
module TaskEnv {
  import opened Common
  import opened JsonValue
  import opened Chord
  import opened CaseArg
  import opened StepArg

  /** A loaded row: its case id and its data. */
  type Row = (string, Json)

  /** One call made on the case loader; `got` is the number of rows a load
      returned (0 for a failed load). */
  datatype LoadCall = Load(size: nat, got: nat) | Reset

  /** `CaseLoad`: the replies still to give to `load` and to `reset`, and the
      calls made so far. Past the end of its replies a loader has no more
      rows and resets without error; it never returns more rows than asked. */
  datatype CaseLoad = CaseLoad(pages: seq<Result<seq<Row>, Error>>, resets: seq<Option<Error>>, log: seq<LoadCall>)

  /** `case_load.load(size)`. */
  function Pull(l: CaseLoad, size: nat): (res: (Result<seq<Row>, Error>, CaseLoad))
    ensures res.0.Ok? ==> |res.0.value| <= size
    ensures l.pages == [] ==> res.0 == Result.Ok([]) && res.1.pages == []
    ensures l.pages != [] ==> res.1.pages == l.pages[1..]
    ensures res.1.resets == l.resets
    ensures res.1.log == l.log + [Load(size, if res.0.Ok? then |res.0.value| else 0)]
  {
    var reply := if l.pages == [] then Result.Ok([]) else l.pages[0];
    var given: Result<seq<Row>, Error> :=
      match reply
      case Ok(rows) => Result.Ok(if |rows| <= size then rows else rows[..size])
      case Err(e) => Result.Err(e);
    var got := if given.Ok? then |given.value| else 0;
    (given, CaseLoad(if l.pages == [] then [] else l.pages[1..], l.resets, l.log + [Load(size, got)]))
  }

  /** `case_load.reset()`. */
  function ResetLoad(l: CaseLoad): (res: (Option<Error>, CaseLoad))
    ensures res.1.pages == l.pages
    ensures res.1.log == l.log + [Reset]
    ensures l.resets == [] ==> res.0.None?
  {
    if l.resets == [] then (None, l.(log := l.log + [Reset]))
    else (l.resets[0], CaseLoad(l.pages, l.resets[1..], l.log + [Reset]))
  }

  /** One call made on the reporter. */
  datatype ReportCall = Start | Report(stageId: string, batch: seq<CaseAssess>) | End(assess: TaskAssess)

  /** `Report`: the replies still to give (an error or success) and the
      calls made so far; past its replies every call succeeds. */
  datatype Reporter = Reporter(replies: seq<Option<Error>>, log: seq<ReportCall>)

  function Call(r: Reporter, c: ReportCall): (res: (Option<Error>, Reporter))
    ensures res.1.log == r.log + [c]
    ensures r.replies == [] ==> res.0.None?
  {
    if r.replies == [] then (None, r.(log := r.log + [c]))
    else (r.replies[0], Reporter(r.replies[1..], r.log + [c]))
  }

  /** The engine's services: the action factory, `case::run` of this
      revision, `crate::flow::assert` for case filters, the template engine,
      the text of an error, and the stage timer, which has fired for a stage
      once the loader has been called the given number of times. */
  datatype Engine<!A> = Engine(
    create: CreateArgStruct -> Result<A, Error>,
    runCase: CaseArgStruct<A> -> RanCaseAssess,
    filter: (Json, string) -> bool,
    render: Renderer,
    errText: Error -> string,
    elapsed: (string, nat) -> bool)

  /** The immutable part of a task runner. */
  datatype TaskEnv<!A> = TaskEnv(flow: Flow, id: TaskId, engine: Engine<A>, preCtx: Option<Json>)

  /** The fields a task runner reassigns. */
  datatype Machine<A> = Machine(
    stepVec: seq<(string, A)>,
    caseExecId: string,
    stageState: TaskState,
    taskState: TaskState,
    load: CaseLoad,
    report: Reporter)

  /** Every stage the flow lists has a declaration. */
  predicate StagesDeclared(flow: Flow)
  {
    forall s | s in flow.stageIds :: s in flow.stages
  }
}
