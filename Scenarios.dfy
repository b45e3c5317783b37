// Clients of the model: what a caller can conclude from the contracts alone.

module Scenarios {
  import opened Jobs
  import opened Hosting
  import opened Worker

  /** Three rounds with an empty queue: three polling sleeps, no job run. */
  method EmptyQueueSleeps(job: JobInfo)
  {
    var config := WorkerConfig(1, "worker", 10, 600);
    var empty := Round(false, true, 10, Empty, Empty);
    var rounds := [empty, empty, empty, Round(true, true, 0, Dequeued(job), Empty)];
    var startDelay, log := RunWorker(config, 42, rounds);
    assert startDelay < 1000;
    assert !rounds[0].shutdown && !rounds[1].shutdown && !rounds[2].shutdown && rounds[3].shutdown;
    assert |log| == 3;
    assert IterationSpec(config, true, StopwatchAt(rounds, log, 0), Empty, Empty, log[0].calls, log[0].step);
    assert IterationSpec(config, true, StopwatchAt(rounds, log, 1), Empty, Empty, log[1].calls, log[1].step);
    assert IterationSpec(config, true, StopwatchAt(rounds, log, 2), Empty, Empty, log[2].calls, log[2].step);
    assert log[0].step == Sleep(10) && log[1].step == Sleep(10) && log[2].step == Sleep(10);
  }

  /** A handler that succeeds with "ok": one completion, Completed, "ok", forced heartbeat. */
  method SuccessCompletes(serialize: Serializer)
  {
    var client := new QueueClient(false);
    var host := new JobHosting(client, (v: JobView) => Some((w: JobView, c: bool) => Success("ok")), 30);
    var job := new JobInfo(7, 1, 3, 1, false);
    var run := host.ExecuteJob(job, serialize, 0, [Reply(false)]);
    assert job.status == Completed && job.result == "ok";
    assert client.completions == [CompleteCall(job.View(), true)];
  }

  /** A soft failure: Failed, the serialized error, and no forced heartbeat. */
  method SoftFailureIsNotForced(serialize: Serializer)
  {
    var client := new QueueClient(true);
    var handler := (w: JobView, c: bool) => SoftFailure("{\"code\":429}", false);
    var host := new JobHosting(client, (v: JobView) => Some(handler), 30);
    var job := new JobInfo(8, 1, 3, 1, false);
    var run := host.ExecuteJob(job, serialize, 99, []);
    assert job.status == Failed && job.result == serialize(HandlerError("{\"code\":429}"));
    assert client.completions == [CompleteCall(job.View(), false)];
  }

  /** A job with cancellation requested: the handler starts cancelled and the job ends Cancelled. */
  method CancelRequestedStillRuns(serialize: Serializer)
  {
    var client := new QueueClient(false);
    var handler := (w: JobView, c: bool) => if c then Canceled else Success("done");
    var host := new JobHosting(client, (v: JobView) => Some(handler), 30);
    var job := new JobInfo(9, 1, 3, 1, true);
    var run := host.ExecuteJob(job, serialize, 5, [Fault]);
    assert run.Ran? && run.cancelledAtStart;
    assert job.status == Cancelled && job.result == "";
    assert |client.completions| == 1 && client.completions[0].forceOneLastHeartbeat;
  }

  /** A job kind the factory does not support is neither completed nor changed. */
  method UnsupportedIsLeftAlone(serialize: Serializer)
  {
    var client := new QueueClient(false);
    var host := new JobHosting(client, (v: JobView) => None, 30);
    var job := new JobInfo(10, 1, 3, 1, false);
    var run := host.ExecuteJob(job, serialize, 5, [Reply(true)]);
    assert run == Unsupported && job.status == Running;
    assert client.completions == [] && client.heartbeats == [];
  }
}
