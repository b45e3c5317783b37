// The job host: resolving a dequeued job to a handler, running it under heartbeats,
// and finalising it with exactly one completion call.

module Hosting {
  import opened Jobs
  import opened Heartbeats
  import opened Finalization

  /** What happened to a dequeued job: not supported by the factory, or run to an outcome. */
  datatype Run =
    | Unsupported
    | Ran(cancelledAtStart: bool, outcome: Outcome, firstHeartbeatDelay: nat)

  class JobHosting {
    const queueClient: QueueClient
    const jobFactory: JobFactory
    var heartbeatIntervalSeconds: nat

    constructor (queueClient: QueueClient, jobFactory: JobFactory, heartbeatIntervalSeconds: nat)
      ensures this.queueClient == queueClient && this.jobFactory == jobFactory
      ensures this.heartbeatIntervalSeconds == heartbeatIntervalSeconds
    {
      this.queueClient := queueClient;
      this.jobFactory := jobFactory;
      this.heartbeatIntervalSeconds := heartbeatIntervalSeconds;
    }

    /**
     * Runs one dequeued job. `serialize` is the JSON serializer, `r` the random draw of
     * the first heartbeat's jitter, `replies` the answers to the heartbeats that fire
     * while the handler runs.
     */
    method ExecuteJob(job: JobInfo, serialize: Serializer, r: nat, replies: seq<HeartbeatReply>) returns (run: Run)
      requires r < 100
      modifies job, queueClient
      // An unsupported job is left alone: no completion, no heartbeat, no change.
      ensures jobFactory(old(job.View())).None? ==>
                && run == Unsupported
                && job.View() == old(job.View())
                && queueClient.completions == old(queueClient.completions)
                && queueClient.heartbeats == old(queueClient.heartbeats)
      // A supported job: the handler starts with a source already cancelled exactly when
      // cancellation was requested, and the job is finalised by its outcome with one call.
      ensures jobFactory(old(job.View())).Some? ==>
                var handler := jobFactory(old(job.View())).value;
                var outcome := handler(old(job.View()), CancelledAfter(old(job.cancelRequested), replies));
                var d := Finalize(outcome, old(job.result), serialize);
                && run == Ran(old(job.cancelRequested), outcome, JitterDelay(r, heartbeatIntervalSeconds))
                && job.View() == old(job.View()).(status := d.status, result := d.result)
                && queueClient.completions
                   == old(queueClient.completions) + [CompleteCall(job.View(), d.forceOneLastHeartbeat)]
      ensures jobFactory(old(job.View())).Some? ==>
                && |queueClient.heartbeats| == |old(queueClient.heartbeats)| + |replies|
                && queueClient.heartbeats[..|old(queueClient.heartbeats)|] == old(queueClient.heartbeats)
                && forall k :: |old(queueClient.heartbeats)| <= k < |queueClient.heartbeats| ==>
                     queueClient.heartbeats[k] == HeartbeatRecord(job.queueType, job.id, job.version)
      ensures queueClient.failing == old(queueClient.failing)
    {
      var view := job.View();
      var created := jobFactory(view);
      if created.None? {
        // logged as a warning: not supported job type
        return Unsupported;
      }
      var handler := created.value;

      var source := new CancellationSource();
      if job.cancelRequested {
        // run the handler anyway, so that it can clean up
        source.Cancel();
      }
      var cancelledAtStart := source.cancelled;

      var outcome, firstDelay := ExecuteJobWithHeartbeats(
        queueClient, job.queueType, job.id, job.version,
        cancelled => handler(view, cancelled),
        heartbeatIntervalSeconds, source, r, replies);
      run := Ran(cancelledAtStart, outcome, firstDelay);

      // A failed completion call is logged and swallowed on every path.
      match outcome
      case Success(result) =>
        job.result := result;
        job.status := Completed;
        var ok := queueClient.CompleteJob(job, true);
      case HardFailure(error, customerCaused) =>
        job.result := serialize(HandlerError(error));
        job.status := Failed;
        var ok := queueClient.CompleteJob(job, true);
      case SoftFailure(error, customerCaused) =>
        job.result := serialize(HandlerError(error));
        job.status := Failed;
        var ok := queueClient.CompleteJob(job, false);
      case Canceled =>
        job.status := Cancelled;
        var ok := queueClient.CompleteJob(job, true);
      case Other(message, stackTrace) =>
        job.result := serialize(ExceptionDetails(message, stackTrace));
        job.status := Failed;
        var ok := queueClient.CompleteJob(job, true);
    }
  }
}
