// The job record, the handler outcomes and the queue client as the job host sees them.

module Jobs {

  /** A `byte` queue type, as the host and the queue store carry it. */
  type QueueType = x: int | 0 <= x < 256

  datatype JobStatus = Created | Running | Completed | Failed | Cancelled

  predicate IsTerminal(s: JobStatus) {
    s == Completed || s == Failed || s == Cancelled
  }

  /** An immutable snapshot of a job record, as handed to the job factory and the handler. */
  datatype JobView = JobView(
    id: int,
    queueType: QueueType,
    groupId: int,
    version: int,
    status: JobStatus,
    result: string,
    cancelRequested: bool)

  /** The mutable job record that the host finalises in place. */
  class JobInfo {
    var id: int
    var queueType: QueueType
    var groupId: int
    var version: int
    var status: JobStatus
    var result: string
    var cancelRequested: bool

    constructor (id: int, queueType: QueueType, groupId: int, version: int, cancelRequested: bool)
      ensures View() == JobView(id, queueType, groupId, version, Running, "", cancelRequested)
    {
      this.id := id;
      this.queueType := queueType;
      this.groupId := groupId;
      this.version := version;
      this.status := Running;
      this.result := "";
      this.cancelRequested := cancelRequested;
    }

    function View(): JobView
      reads this
    {
      JobView(id, queueType, groupId, version, status, result, cancelRequested)
    }
  }

  /** The object a handler failure carries, as it is handed to the JSON serializer. */
  datatype ErrorObject =
    | HandlerError(error: string)                         // JobExecutionException.Error and its soft-failure twin
    | ExceptionDetails(message: string, stackTrace: string) // { message, stackTrace } of any other exception

  /** The JSON serializer is external: it is a parameter of the model. */
  type Serializer = ErrorObject -> string

  /** How a handler's run ended: its returned string, or the exception it threw. */
  datatype Outcome =
    | Success(result: string)
    | HardFailure(error: string, customerCaused: bool)   // JobExecutionException
    | SoftFailure(error: string, customerCaused: bool)   // JobExecutionSoftFailureException
    | Canceled                                           // OperationCanceledException
    | Other(message: string, stackTrace: string)         // any other exception

  /** A handler runs a job, observing whether its cancellation token is cancelled. */
  type Handler = (JobView, bool) -> Outcome

  /** The job factory yields a handler, or none for a job kind it does not support. */
  type JobFactory = JobView -> Option<Handler>

  datatype Option<T> = None | Some(value: T)

  /** The record sent with each heartbeat: only the queue type, the id and the version. */
  datatype HeartbeatRecord = HeartbeatRecord(queueType: QueueType, id: int, version: int)

  /** What a heartbeat call gave back: the store's "stop executing" answer, or an exception. */
  datatype HeartbeatReply = Reply(cancel: bool) | Fault

  /** One CompleteJobAsync call, with the job's state as the store receives it. */
  datatype CompleteCall = CompleteCall(job: JobView, forceOneLastHeartbeat: bool)

  /** The queue store, reduced to a recorder of the calls the host makes on it. */
  class QueueClient {
    var failing: bool        // when set, every CompleteJobAsync call throws
    var completions: seq<CompleteCall>
    var heartbeats: seq<HeartbeatRecord>

    constructor (failing: bool)
      ensures this.failing == failing
      ensures completions == [] && heartbeats == []
    {
      this.failing := failing;
      completions := [];
      heartbeats := [];
    }

    /** Records the call; `ok` is false when the store threw. */
    method CompleteJob(job: JobInfo, forceOneLastHeartbeat: bool) returns (ok: bool)
      modifies this
      ensures completions == old(completions) + [CompleteCall(job.View(), forceOneLastHeartbeat)]
      ensures heartbeats == old(heartbeats)
      ensures failing == old(failing)
      ensures ok == !failing
    {
      completions := completions + [CompleteCall(job.View(), forceOneLastHeartbeat)];
      ok := !failing;
    }

    /** Records the call; the store's answer for this tick is an input of the model. */
    method PutJobHeartbeat(record: HeartbeatRecord, answer: HeartbeatReply) returns (reply: HeartbeatReply)
      modifies this
      ensures heartbeats == old(heartbeats) + [record]
      ensures completions == old(completions)
      ensures failing == old(failing)
      ensures reply == answer
    {
      heartbeats := heartbeats + [record];
      reply := answer;
    }
  }

  /** A cancellation source: a single flag that can be set and never cleared. */
  class CancellationSource {
    var cancelled: bool

    constructor ()
      ensures !cancelled
    {
      cancelled := false;
    }

    method Cancel()
      modifies this
      ensures cancelled
    {
      cancelled := true;
    }
  }
}
