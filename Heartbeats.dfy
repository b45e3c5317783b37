// The heartbeat supervisor: the jittered first tick, one heartbeat tick, and a
// handler run under a stream of ticks.

module Heartbeats {
  import opened Jobs

  /**
   * The jittered delay `RandomNumberGenerator.GetInt32(100) / 100.0 * period`, in
   * hundredths of a second so that it is exact: `r` is the random draw in [0, 100).
   * Used for the startup delay of a worker and the first heartbeat of a job.
   */
  function JitterDelay(r: nat, periodSeconds: nat): (centis: nat)
    requires r < 100
    ensures centis <= 99 * periodSeconds
    ensures periodSeconds > 0 ==> centis < 100 * periodSeconds
  {
    r * periodSeconds
  }

  /** A larger draw never gives a shorter delay, and distinct draws give distinct delays. */
  lemma JitterDelayStrictlyIncreasing(r1: nat, r2: nat, periodSeconds: nat)
    requires r1 < r2 < 100 && periodSeconds > 0
    ensures JitterDelay(r1, periodSeconds) + periodSeconds <= JitterDelay(r2, periodSeconds)
  {
    var k := r2 - r1;
    assert k >= 1;
    assert r2 * periodSeconds == r1 * periodSeconds + k * periodSeconds;
    assert k * periodSeconds >= periodSeconds;
  }

  /** The state of the cancellation flag after a sequence of heartbeat ticks. */
  function CancelledAfter(cancelled: bool, replies: seq<HeartbeatReply>): (c: bool)
    ensures c <==> cancelled || Reply(true) in replies
    decreases replies
  {
    if replies == [] then cancelled
    else CancelledAfter(cancelled || replies[0] == Reply(true), replies[1..])
  }

  /** One timer tick: send the heartbeat; a `true` answer cancels the execution source. */
  method PutJobHeartbeat(client: QueueClient, record: HeartbeatRecord, source: CancellationSource, answer: HeartbeatReply)
    modifies client, source
    ensures source.cancelled == (old(source.cancelled) || answer == Reply(true))
    ensures client.heartbeats == old(client.heartbeats) + [record]
    ensures client.completions == old(client.completions)
    ensures client.failing == old(client.failing)
  {
    var reply := client.PutJobHeartbeat(record, answer);
    match reply
    case Reply(cancel) =>
      if cancel {
        source.Cancel();
      }
    case Fault =>
      // the exception is swallowed; the next tick tries again
  }

  /**
   * Runs `action` with the execution source while heartbeats tick. `replies` are the
   * answers to the ticks that fire before the action returns; the action observes the
   * source as those ticks leave it. Returns the action's outcome and the delay of the
   * first tick in hundredths of a second.
   */
  method ExecuteJobWithHeartbeats(
    client: QueueClient, queueType: QueueType, jobId: int, version: int,
    action: bool -> Outcome, periodSeconds: nat, source: CancellationSource,
    r: nat, replies: seq<HeartbeatReply>)
    returns (outcome: Outcome, firstDelay: nat)
    requires r < 100
    modifies client, source
    ensures firstDelay == JitterDelay(r, periodSeconds)
    ensures source.cancelled == CancelledAfter(old(source.cancelled), replies)
    ensures outcome == action(source.cancelled)
    ensures |client.heartbeats| == |old(client.heartbeats)| + |replies|
    ensures client.heartbeats[..|old(client.heartbeats)|] == old(client.heartbeats)
    ensures forall k :: |old(client.heartbeats)| <= k < |client.heartbeats| ==>
              client.heartbeats[k] == HeartbeatRecord(queueType, jobId, version)
    ensures client.completions == old(client.completions)
    ensures client.failing == old(client.failing)
  {
    var record := HeartbeatRecord(queueType, jobId, version);
    firstDelay := JitterDelay(r, periodSeconds);
    ghost var before := client.heartbeats;
    var i := 0;
    while i < |replies|
      invariant 0 <= i <= |replies|
      invariant source.cancelled == CancelledAfter(old(source.cancelled), replies[..i])
      invariant |client.heartbeats| == |before| + i
      invariant client.heartbeats[..|before|] == before
      invariant forall k :: |before| <= k < |client.heartbeats| ==> client.heartbeats[k] == record
      invariant client.completions == old(client.completions)
      invariant client.failing == old(client.failing)
    {
      PutJobHeartbeat(client, record, source, replies[i]);
      assert replies[..i + 1] == replies[..i] + [replies[i]];
      i := i + 1;
    }
    assert replies[..i] == replies;
    outcome := action(source.cancelled);
  }
}
