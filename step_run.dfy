/** One step execution of the engine revision (`flow/src/flow/step/mod.rs`):
    the action's outcome, after the step timeout and the unwind guard, becomes
    the step's tri-state. */
module StepRun {
  import opened Common
  import opened JsonValue
  import opened Chord
  import opened StepArg

  /** The result of `async_std::future::timeout`: the inner value, or the
      timer fired first. */
  datatype Timed<T> = InTime(value: T) | TimedOut

  /** The result of `catch_unwind`: the inner value, or the action panicked. */
  datatype Caught<T> = Returned(value: T) | Unwound

  /** What the action returns (`StepValue`). */
  type StepValue = Result<Json, Error>

  /** The action returned `Ok` within the step's timeout. */
  predicate ReturnedOk(outcome: Timed<Caught<StepValue>>)
  {
    outcome.InTime? && outcome.value.Returned? && outcome.value.value.Ok?
  }

  /** `run`: the clock readings `start` and `end` and the outcome of the
      guarded, timed action are inputs. */
  function Run(arg: RunArgStruct, start: Time, end: Time, outcome: Timed<Caught<StepValue>>): (a: StepAssess)
    ensures a.id == arg.id && a.start == start && a.end == end
    ensures outcome.TimedOut? ==> a.state == StepState.Err(Error("001", "timeout"))
    ensures outcome == InTime(Unwound) ==> a.state == StepState.Err(Error("002", "unwind"))
    ensures ReturnedOk(outcome) ==> a.state == StepState.Ok(outcome.value.value.value)
    ensures outcome.InTime? && outcome.value.Returned? && outcome.value.value.Err? ==>
              a.state == StepState.Err(outcome.value.value.error)
    ensures a.state.IsOk() <==> ReturnedOk(outcome)
    ensures !a.state.IsFail()
  {
    match outcome
    case TimedOut => StepAssess(arg.id, start, end, StepState.Err(Error("001", "timeout")))
    case InTime(Unwound) => StepAssess(arg.id, start, end, StepState.Err(Error("002", "unwind")))
    case InTime(Returned(Ok(json))) => StepAssess(arg.id, start, end, StepState.Ok(json))
    case InTime(Returned(Err(e))) => StepAssess(arg.id, start, end, StepState.Err(e))
  }

  /** With `Fail` ruled out, the step is `Err` precisely when the action
      did not return `Ok` in time. */
  lemma RunErrIffNotOk(arg: RunArgStruct, start: Time, end: Time, outcome: Timed<Caught<StepValue>>)
    ensures Run(arg, start, end, outcome).state.IsErr() <==> !ReturnedOk(outcome)
  {
    var a := Run(arg, start, end, outcome);
    ExactlyOneStepPredicate(a.state);
  }
}
