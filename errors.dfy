/** The exceptions the core raises or lets escape. The message strings of the
    Python code are replaced by a structured reason naming the offending field. */
module Errors {
  import opened Json

  /** Reasons carried by WorkerError. */
  datatype WorkerFault =
    | MessageRequired   // PrintWorker: 'message' argument required
    | StartFailed       // the thread could not be started
    | JoinFailed        // the thread could not be joined

  /** Reasons carried by FactoryError. */
  datatype FactoryFault =
    | UnknownWorker(id: Json)                // no registered type has this WORKER_ID
    | ValidationFailed(cause: WorkerFault)   // validate() raised WorkerError

  /** Reasons carried by SchedulerError. */
  datatype SchedulerFault =
    | MissingWorkers
    | WorkersNotList
    | MissingType
    | AsyncNotBool
    | BuildFailed(name: Json, cause: FactoryFault)
    | MissingMode
    | UnrecognizedMode(mode: Json)
    | MissingDelay
    | DelayNotNumber
    | MissingTime
    | UnparsableTime(time: Json)

  /** A raised exception: the three exception classes of the core, and the two
      built-in exceptions that escape it uncaught. */
  datatype Exc =
    | SchedulerError(sf: SchedulerFault)
    | FactoryError(ff: FactoryFault)
    | WorkerError(wf: WorkerFault)
    | AttributeError   // `.get` called on something that is not a dict
    | TypeError        // unhashable key, `in` on a non-container, wrong call arity

  /** The outcome of a call that returns nothing: it returns, or it raises. */
  datatype Outcome = Pass | Fail(exc: Exc)
}
