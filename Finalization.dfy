// How a handler's outcome decides the job's terminal status, its result, the
// forceOneLastHeartbeat flag of the completion call and the log severity.

module Finalization {
  import opened Jobs

  datatype Severity = Information | Warning | Error

  /** What the host does with a finished handler run. */
  datatype Disposition = Disposition(
    status: JobStatus,
    result: string,
    forceOneLastHeartbeat: bool,
    severity: Severity)

  /**
   * The disposition of a handler outcome; `prior` is the job's result before the run,
   * which a cancellation leaves in place.
   */
  function Finalize(outcome: Outcome, prior: string, serialize: Serializer): (d: Disposition)
    ensures IsTerminal(d.status)
    ensures d.status == Completed <==> outcome.Success?
    ensures d.status == Cancelled <==> outcome.Canceled?
    ensures d.status == Failed <==> outcome.HardFailure? || outcome.SoftFailure? || outcome.Other?
    ensures !d.forceOneLastHeartbeat <==> outcome.SoftFailure?
    ensures outcome.Success? ==> d.result == outcome.result
    ensures outcome.HardFailure? || outcome.SoftFailure? ==> d.result == serialize(HandlerError(outcome.error))
    ensures outcome.Other? ==> d.result == serialize(ExceptionDetails(outcome.message, outcome.stackTrace))
    ensures outcome.Canceled? ==> d.result == prior
    ensures d.severity == Information <==> outcome.Success?
    ensures d.severity == Error <==>
              outcome.Other? || ((outcome.HardFailure? || outcome.SoftFailure?) && !outcome.customerCaused)
  {
    match outcome
    case Success(result) =>
      Disposition(Completed, result, true, Information)
    case HardFailure(error, customerCaused) =>
      Disposition(Failed, serialize(HandlerError(error)), true, if customerCaused then Warning else Error)
    case SoftFailure(error, customerCaused) =>
      Disposition(Failed, serialize(HandlerError(error)), false, if customerCaused then Warning else Error)
    case Canceled =>
      Disposition(Cancelled, prior, true, Warning)
    case Other(message, stackTrace) =>
      Disposition(Failed, serialize(ExceptionDetails(message, stackTrace)), true, Error)
  }

  /** Whether a failure is customer caused decides the log severity and nothing else. */
  lemma CustomerCausedOnlyChangesSeverity(outcome: Outcome, flipped: Outcome, prior: string, serialize: Serializer)
    requires outcome.HardFailure? || outcome.SoftFailure?
    requires flipped == outcome.(customerCaused := !outcome.customerCaused)
    ensures Finalize(outcome, prior, serialize).(severity := Warning)
         == Finalize(flipped, prior, serialize).(severity := Warning)
    ensures Finalize(outcome, prior, serialize).severity != Finalize(flipped, prior, serialize).severity
  {
  }
}
