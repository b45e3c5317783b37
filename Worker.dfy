// One polling worker of the job host: the decision taken in one iteration of its
// loop, and the loop itself over a script of rounds.

module Worker {
  import opened Jobs
  import opened Heartbeats

  /** Seconds of loop uptime after which a worker scans for jobs whose lease expired. */
  const ExpiredJobScanSeconds: nat := 600

  /** What one dequeue call gave back. */
  datatype DequeueResult = Dequeued(job: JobInfo) | Empty | DequeueFault

  /** A dequeue call as the queue store receives it. */
  datatype DequeueCall = DequeueCall(
    queueType: QueueType,
    workerName: string,
    leaseTimeoutSeconds: nat,
    checkTimeoutJobsOnly: bool)

  /** What an iteration does after dequeuing: run a job, or sleep for some seconds. */
  datatype Step = Execute(job: JobInfo) | Sleep(seconds: nat)

  /** The settings one worker polls with. */
  datatype WorkerConfig = WorkerConfig(
    queueType: QueueType,
    workerName: string,
    pollingFrequencySeconds: nat,
    leaseTimeoutSeconds: nat)

  predicate ScansExpired(calls: seq<DequeueCall>) {
    calls != [] && calls[0].checkTimeoutJobsOnly
  }

  predicate ScansNormal(calls: seq<DequeueCall>) {
    calls != [] && !calls[|calls| - 1].checkTimeoutJobsOnly
  }

  predicate IssuedBy(config: WorkerConfig, call: DequeueCall) {
    call.queueType == config.queueType && call.workerName == config.workerName
    && call.leaseTimeoutSeconds == config.leaseTimeoutSeconds
  }

  /**
   * What one iteration of the polling loop does, given the stopwatch reading `elapsed`
   * in seconds and what the two kinds of dequeue would give back: the dequeue calls it
   * makes and the step it takes.
   */
  predicate IterationSpec(config: WorkerConfig, initialized: bool, elapsed: nat,
                          expiredScan: DequeueResult, normalScan: DequeueResult,
                          calls: seq<DequeueCall>, step: Step)
  {
    && (forall c :: c in calls ==> IssuedBy(config, c))
    && |calls| == (if ScansExpired(calls) then 1 else 0) + (if ScansNormal(calls) then 1 else 0)
    // nothing is dequeued before the queue client is initialised
    && (calls != [] ==> initialized)
    // the expired-only scan runs exactly when the stopwatch passed 600 s
    && (ScansExpired(calls) <==> initialized && elapsed > ExpiredJobScanSeconds)
    // the normal dequeue runs exactly when the expired-only scan did not run or found nothing
    && (ScansNormal(calls) <==> initialized && (elapsed <= ExpiredJobScanSeconds || expiredScan == Empty))
    // at most one job, exactly when a dequeue made here returned one, and that job
    && (step.Execute? <==>
          (ScansExpired(calls) && expiredScan.Dequeued?) || (ScansNormal(calls) && normalScan.Dequeued?))
    && (step.Execute? ==>
          (ScansExpired(calls) && expiredScan == Dequeued(step.job))
          || (ScansNormal(calls) && normalScan == Dequeued(step.job)))
    // otherwise, after an empty queue or a dequeue error, it sleeps the polling interval
    && (step.Sleep? ==> step.seconds == config.pollingFrequencySeconds)
  }

  /** What one iteration gives back: the dequeue calls made, the step taken, the stopwatch afterwards. */
  datatype IterationResult = IterationResult(calls: seq<DequeueCall>, step: Step, stopwatch: nat)

  /** The step after the dequeue that ran last: run the job it returned, or sleep. */
  function StepAfter(config: WorkerConfig, scan: DequeueResult): Step {
    if scan.Dequeued? then Execute(scan.job) else Sleep(config.pollingFrequencySeconds)
  }

  /**
   * One iteration of the polling loop as a case table over its inputs: the stopwatch
   * reading `elapsed` in seconds and what the two kinds of dequeue would give back.
   */
  function Iteration(config: WorkerConfig, initialized: bool, elapsed: nat,
                     expiredScan: DequeueResult, normalScan: DequeueResult): (it: IterationResult)
    ensures IterationSpec(config, initialized, elapsed, expiredScan, normalScan, it.calls, it.step)
    // the expired-only scan restarts the stopwatch
    ensures it.stopwatch == if ScansExpired(it.calls) then 0 else elapsed
  {
    var expiredCall := DequeueCall(config.queueType, config.workerName, config.leaseTimeoutSeconds, true);
    var normalCall := DequeueCall(config.queueType, config.workerName, config.leaseTimeoutSeconds, false);
    if !initialized then
      IterationResult([], Sleep(config.pollingFrequencySeconds), elapsed)
    else if elapsed <= ExpiredJobScanSeconds then
      IterationResult([normalCall], StepAfter(config, normalScan), elapsed)
    else if expiredScan == Empty then
      IterationResult([expiredCall, normalCall], StepAfter(config, normalScan), 0)
    else
      IterationResult([expiredCall], StepAfter(config, expiredScan), 0)
  }

  /**
   * One iteration of the polling loop. Returns the step taken, the stopwatch
   * afterwards and the dequeue calls made.
   */
  method WorkerIteration(config: WorkerConfig, initialized: bool, elapsed: nat,
                         expiredScan: DequeueResult, normalScan: DequeueResult)
    returns (step: Step, stopwatch: nat, calls: seq<DequeueCall>)
    ensures IterationResult(calls, step, stopwatch) == Iteration(config, initialized, elapsed, expiredScan, normalScan)
  {
    stopwatch := elapsed;
    calls := [];
    var next: Option<JobInfo> := None;
    if initialized {
      var faulted := false;
      if elapsed > ExpiredJobScanSeconds {
        stopwatch := 0;
        calls := calls + [DequeueCall(config.queueType, config.workerName, config.leaseTimeoutSeconds, true)];
        match expiredScan
        case Dequeued(job) => next := Some(job);
        case Empty =>
        case DequeueFault => faulted := true;  // logged; the normal dequeue is skipped too
      }
      if !faulted && next.None? {
        calls := calls + [DequeueCall(config.queueType, config.workerName, config.leaseTimeoutSeconds, false)];
        match normalScan
        case Dequeued(job) => next := Some(job);
        case Empty =>
        case DequeueFault =>  // logged
      }
    }
    step := if next.Some? then Execute(next.value) else Sleep(config.pollingFrequencySeconds);
  }

  /**
   * What the loop meets at the start of one round: whether shutdown was requested,
   * whether the queue client is initialised, the seconds the stopwatch advanced since
   * the previous round's check (since the loop started, for the first round), and what
   * the two dequeues would give back.
   */
  datatype Round = Round(
    shutdown: bool,
    initialized: bool,
    advance: nat,
    expiredScan: DequeueResult,
    normalScan: DequeueResult)

  datatype RoundLog = RoundLog(calls: seq<DequeueCall>, step: Step)

  /** Stopwatch seconds accumulated over rounds lo .. hi-1. */
  function Elapsed(rounds: seq<Round>, lo: nat, hi: nat): nat
    requires lo <= hi <= |rounds|
    decreases hi - lo
  {
    if lo == hi then 0 else Elapsed(rounds, lo, hi - 1) + rounds[hi - 1].advance
  }

  lemma {:induction false} ElapsedSplit(rounds: seq<Round>, lo: nat, mid: nat, hi: nat)
    requires lo <= mid <= hi <= |rounds|
    ensures Elapsed(rounds, lo, hi) == Elapsed(rounds, lo, mid) + Elapsed(rounds, mid, hi)
    decreases hi - mid
  {
    if mid < hi {
      ElapsedSplit(rounds, lo, mid, hi - 1);
    }
  }

  /** The last round before round `k` that ran an expired-only scan, or -1 if none did. */
  function LastScanBefore(log: seq<RoundLog>, k: nat): (j: int)
    requires k <= |log|
    ensures -1 <= j < k
    ensures j >= 0 ==> ScansExpired(log[j].calls)
    ensures forall m :: j < m < k ==> !ScansExpired(log[m].calls)
  {
    if k == 0 then -1
    else if ScansExpired(log[k - 1].calls) then k - 1
    else LastScanBefore(log, k - 1)
  }

  lemma {:induction false} LastScanBeforePrefix(log: seq<RoundLog>, extra: seq<RoundLog>, k: nat)
    requires k <= |log|
    ensures LastScanBefore(log + extra, k) == LastScanBefore(log, k)
  {
    if k > 0 {
      assert (log + extra)[k - 1] == log[k - 1];
      LastScanBeforePrefix(log, extra, k - 1);
    }
  }

  /**
   * The stopwatch reading at round `k`'s check: the seconds since the last expired-only
   * scan before it, or since the loop started.
   */
  function StopwatchAt(rounds: seq<Round>, log: seq<RoundLog>, k: nat): nat
    requires k < |log| <= |rounds|
  {
    Elapsed(rounds, LastScanBefore(log, k) + 1, k + 1)
  }

  /** What round `k` logs when it runs one iteration at the stopwatch reading it sees. */
  function RoundResult(config: WorkerConfig, rounds: seq<Round>, log: seq<RoundLog>, k: nat): RoundLog
    requires k < |log| <= |rounds|
  {
    var it := Iteration(config, rounds[k].initialized, StopwatchAt(rounds, log, k),
                        rounds[k].expiredScan, rounds[k].normalScan);
    RoundLog(it.calls, it.step)
  }

  /** Every logged round is what one iteration logs at the stopwatch reading that round saw. */
  ghost predicate FollowsIterations(config: WorkerConfig, rounds: seq<Round>, log: seq<RoundLog>)
    requires |log| <= |rounds|
  {
    forall k {:trigger RoundResult(config, rounds, log, k)} ::
      0 <= k < |log| ==> log[k] == RoundResult(config, rounds, log, k)
  }

  /** Rounds already logged see the same stopwatch, and so log the same, when the log grows. */
  lemma {:induction false} RoundResultPrefix(config: WorkerConfig, rounds: seq<Round>, log: seq<RoundLog>,
                                             extra: seq<RoundLog>, k: nat)
    requires k < |log| && |log + extra| <= |rounds|
    ensures RoundResult(config, rounds, log + extra, k) == RoundResult(config, rounds, log, k)
  {
    LastScanBeforePrefix(log, extra, k);
  }

  /** The new last round of a grown log is the iteration of its round at the stopwatch reading it saw. */
  lemma {:induction false} NewRoundFollows(config: WorkerConfig, rounds: seq<Round>, log: seq<RoundLog>, entry: RoundLog)
    requires |log| < |rounds|
    requires var it := Iteration(config, rounds[|log|].initialized,
                                 Elapsed(rounds, LastScanBefore(log, |log|) + 1, |log| + 1),
                                 rounds[|log|].expiredScan, rounds[|log|].normalScan);
             entry == RoundLog(it.calls, it.step)
    ensures (log + [entry])[|log|] == RoundResult(config, rounds, log + [entry], |log|)
  {
    LastScanBeforePrefix(log, [entry], |log|);
    assert StopwatchAt(rounds, log + [entry], |log|)
        == Elapsed(rounds, LastScanBefore(log, |log|) + 1, |log| + 1);
  }

  /** The rounds already logged stay the iterations of their own rounds when the log grows. */
  lemma {:induction false} OldRoundsFollow(config: WorkerConfig, rounds: seq<Round>, log: seq<RoundLog>, entry: RoundLog)
    requires |log| < |rounds|
    requires FollowsIterations(config, rounds, log)
    ensures forall k {:trigger RoundResult(config, rounds, log + [entry], k)} ::
              0 <= k < |log| ==> (log + [entry])[k] == RoundResult(config, rounds, log + [entry], k)
  {
    forall k | 0 <= k < |log|
      ensures (log + [entry])[k] == RoundResult(config, rounds, log + [entry], k)
    {
      RoundResultPrefix(config, rounds, log, [entry], k);
      assert (log + [entry])[k] == log[k];
    }
  }

  /** Appending the iteration of the next round, at the stopwatch reading it saw, keeps the log faithful. */
  lemma {:induction false} FollowsIterationsExtend(config: WorkerConfig, rounds: seq<Round>, log: seq<RoundLog>, entry: RoundLog)
    requires |log| < |rounds|
    requires FollowsIterations(config, rounds, log)
    requires var it := Iteration(config, rounds[|log|].initialized,
                                 Elapsed(rounds, LastScanBefore(log, |log|) + 1, |log| + 1),
                                 rounds[|log|].expiredScan, rounds[|log|].normalScan);
             entry == RoundLog(it.calls, it.step)
    ensures FollowsIterations(config, rounds, log + [entry])
  {
    OldRoundsFollow(config, rounds, log, entry);
    NewRoundFollows(config, rounds, log, entry);
  }

  /**
   * Expired-only scans in a log of rounds are spaced as the stopwatch demands: the
   * first comes after more than 600 s of loop uptime, and any two are more than 600 s apart.
   */
  ghost predicate ScansSpaced(rounds: seq<Round>, log: seq<RoundLog>)
    requires |log| <= |rounds|
  {
    && (forall k :: 0 <= k < |log| && ScansExpired(log[k].calls) ==>
          Elapsed(rounds, 0, k + 1) > ExpiredJobScanSeconds)
    && (forall j, k :: 0 <= j < k < |log| && ScansExpired(log[j].calls) && ScansExpired(log[k].calls) ==>
          Elapsed(rounds, j + 1, k + 1) > ExpiredJobScanSeconds)
  }

  /**
   * Appending a round keeps the scans spaced, provided that a scan in the new round
   * comes more than 600 s after the last scan before it (or after the start).
   */
  lemma {:induction false} ScansSpacedExtend(rounds: seq<Round>, log: seq<RoundLog>, lastScan: int, entry: RoundLog)
    requires |log| < |rounds|
    requires ScansSpaced(rounds, log)
    requires -1 <= lastScan < |log|
    requires lastScan >= 0 ==> ScansExpired(log[lastScan].calls)
    requires forall k :: lastScan < k < |log| ==> !ScansExpired(log[k].calls)
    requires ScansExpired(entry.calls) ==> Elapsed(rounds, lastScan + 1, |log| + 1) > ExpiredJobScanSeconds
    ensures ScansSpaced(rounds, log + [entry])
  {
    var i := |log|;
    var log' := log + [entry];
    if ScansExpired(entry.calls) {
      ElapsedSplit(rounds, 0, lastScan + 1, i + 1);
      forall j | 0 <= j < i && ScansExpired(log'[j].calls)
        ensures Elapsed(rounds, j + 1, i + 1) > ExpiredJobScanSeconds
      {
        assert log'[j] == log[j];
        ElapsedSplit(rounds, j + 1, lastScan + 1, i + 1);
      }
    }
    forall j, k | 0 <= j < k < |log'| && ScansExpired(log'[j].calls) && ScansExpired(log'[k].calls)
      ensures Elapsed(rounds, j + 1, k + 1) > ExpiredJobScanSeconds
    {
      if k < i {
        assert log'[j] == log[j] && log'[k] == log[k];
      }
    }
    forall k | 0 <= k < |log'| && ScansExpired(log'[k].calls)
      ensures Elapsed(rounds, 0, k + 1) > ExpiredJobScanSeconds
    {
      if k < i {
        assert log'[k] == log[k];
      }
    }
  }

  /**
   * One round of the loop, on the loop's ghost state: the last scan before the round,
   * the stopwatch reading it sees, and the log so far. Running the iteration of that
   * round keeps every part of that state as the loop describes it.
   */
  lemma {:induction false} RoundStep(config: WorkerConfig, rounds: seq<Round>, log: seq<RoundLog>, lastScan: int,
                  elapsed: nat, it: IterationResult)
    requires |log| < |rounds|
    requires lastScan == LastScanBefore(log, |log|)
    requires FollowsIterations(config, rounds, log)
    requires ScansSpaced(rounds, log)
    requires elapsed == Elapsed(rounds, lastScan + 1, |log| + 1)
    requires it == Iteration(config, rounds[|log|].initialized, elapsed,
                             rounds[|log|].expiredScan, rounds[|log|].normalScan)
    ensures var log' := log + [RoundLog(it.calls, it.step)];
            var lastScan' := if ScansExpired(it.calls) then |log| else lastScan;
            && lastScan' == LastScanBefore(log', |log'|)
            && it.stopwatch == Elapsed(rounds, lastScan' + 1, |log'|)
            && FollowsIterations(config, rounds, log')
            && ScansSpaced(rounds, log')
  {
    var entry := RoundLog(it.calls, it.step);
    var log' := log + [entry];
    ScansSpacedExtend(rounds, log, lastScan, entry);
    FollowsIterationsExtend(config, rounds, log, entry);
    LastScanBeforePrefix(log, [entry], |log|);
    assert log'[|log|] == entry;
  }

  /**
   * The polling loop of one worker: a jittered start delay (hundredths of a second,
   * from the random draw `r`), then one iteration per round until shutdown is requested.
   */
  method RunWorker(config: WorkerConfig, r: nat, rounds: seq<Round>)
    returns (startDelay: nat, log: seq<RoundLog>)
    requires r < 100
    ensures startDelay == JitterDelay(r, config.pollingFrequencySeconds)
    // the loop runs until the first round at which shutdown is requested
    ensures |log| <= |rounds|
    ensures forall k :: 0 <= k < |log| ==> !rounds[k].shutdown
    ensures |log| < |rounds| ==> rounds[|log|].shutdown
    // every round does what one iteration does at the stopwatch reading of that round
    ensures forall k :: 0 <= k < |log| ==> log[k] == RoundResult(config, rounds, log, k)
    // hence expired-only scans are more than 600 s apart, and the first comes after 600 s
    ensures ScansSpaced(rounds, log)
  {
    startDelay := JitterDelay(r, config.pollingFrequencySeconds);
    var stopwatch: nat := 0;
    ghost var lastScan: int := -1;
    log := [];
    var i := 0;
    while i < |rounds| && !rounds[i].shutdown
      invariant 0 <= i <= |rounds| && |log| == i
      invariant lastScan == LastScanBefore(log, i)
      invariant stopwatch == Elapsed(rounds, lastScan + 1, i)
      invariant forall k :: 0 <= k < i ==> !rounds[k].shutdown
      invariant FollowsIterations(config, rounds, log)
      invariant ScansSpaced(rounds, log)
    {
      var round := rounds[i];
      stopwatch := stopwatch + round.advance;
      assert stopwatch == Elapsed(rounds, lastScan + 1, i + 1);
      var step, calls;
      ghost var elapsed := stopwatch;
      step, stopwatch, calls := WorkerIteration(config, round.initialized, stopwatch, round.expiredScan, round.normalScan);
      RoundStep(config, rounds, log, lastScan, elapsed, IterationResult(calls, step, stopwatch));
      var entry := RoundLog(calls, step);
      if ScansExpired(calls) {
        lastScan := i;
      }
      log := log + [entry];
      i := i + 1;
    }
  }
}
