/** Values the lock helpers take and give back: nullable references, the
    caller's unit of work, and the ways a call can end. */
module Outcomes {

  /** A Java reference that may be null. */
  datatype Option<T> = None | Some(value: T)

  /** How the caller's `Runnable` ends when it is run: normally, or by
      throwing an unchecked exception (named by `error`). */
  datatype Work = Completes | Throws(error: string)

  /** The exceptions a run helper lets escape to its caller. */
  datatype Failure =
    | NullPointer                       // Objects.requireNonNull on a null argument
    | IllegalArgument(message: string)  // a non-positive waitTime or leaseTime
    | InterruptedWait                   // RuntimeException wrapping the InterruptedException of a wait
    | WorkFailed(error: string)         // whatever the runnable threw, unchanged

  /** How one call of a run helper ends. */
  datatype Outcome =
    | Returned(value: bool)    // a tryLockRun overload returned this boolean
    | Completed                // a lockRun overload (void) returned normally
    | Threw(failure: Failure)
    | Hangs                    // the call waits forever and never returns

  /** The outcome of running `work` inside the lock: `normal` when it
      completes, its own exception when it throws. */
  function WorkOutcome(work: Work, normal: Outcome): (o: Outcome)
  {
    match work
    case Completes => normal
    case Throws(error) => Threw(WorkFailed(error))
  }
}
