/** First in, first out: the order in which jobs are claimed, in terms of the creation calls
    (services/api-gateway/scan_jobs.py). */
module ScanOrder {
  import opened Wrappers
  import opened ScanJobs
  import opened ScanWorkers

  /** The times of the creation calls in a run, in order. */
  ghost function CreationTimes(run: seq<Action>): seq<Time> {
    if run == [] then []
    else (if run[0].Create? then [run[0].now] else []) + CreationTimes(run[1..])
  }

  ghost function Created(t: Table): (times: seq<Time>)
    ensures |times| == |t| && forall i | 0 <= i < |t| :: times[i] == t[i].createdAt
  {
    seq(|t|, i requires 0 <= i < |t| => t[i].createdAt)
  }

  lemma StepKeepsCreated(s: State, a: Action, maxRetries: int)
    requires Sized(s) && Enabled(s, a)
    ensures Created(Next(s, a, maxRetries).jobs) == Created(s.jobs) + (if a.Create? then [a.now] else [])
  {
    var before, after := s.jobs, Next(s, a, maxRetries).jobs;
    if !a.Create? {
      assert |after| == |before| && forall i | 0 <= i < |before| :: after[i].createdAt == before[i].createdAt;
      assert Created(before) + [] == Created(before);
    }
  }

  lemma {:induction false} RunKeepsCreated(s: State, run: seq<Action>, maxRetries: int)
    requires Sized(s) && Runnable(s, run, maxRetries)
    ensures Created(After(s, run, maxRetries).jobs) == Created(s.jobs) + CreationTimes(run)
    decreases |run|
  {
    hide Next, Enabled, Created;
    if run == [] {
      assert Created(s.jobs) + [] == Created(s.jobs);
    } else {
      StepKeepsCreated(s, run[0], maxRetries);
      RunKeepsCreated(Next(s, run[0], maxRetries), run[1..], maxRetries);
      var here: seq<Time> := if run[0].Create? then [run[0].now] else [];
      assert (Created(s.jobs) + here) + CreationTimes(run[1..]) == Created(s.jobs) + (here + CreationTimes(run[1..]));
    }
  }

  /** After any run the table holds one row per creation call, in that order, each with the time of its
      call. */
  lemma RowsAreTheCreations(workers: nat, run: seq<Action>, maxRetries: int)
    requires Runnable(Init(workers), run, maxRetries)
    ensures var jobs := After(Init(workers), run, maxRetries).jobs;
            |jobs| == |CreationTimes(run)| && forall i | 0 <= i < |jobs| :: jobs[i].createdAt == CreationTimes(run)[i]
  {
    RunKeepsCreated(Init(workers), run, maxRetries);
    assert Created([]) + CreationTimes(run) == CreationTimes(run);
    var jobs := After(Init(workers), run, maxRetries).jobs;
    assert Created(jobs) == CreationTimes(run);
    hide After, Runnable, CreationTimes, Created;
    assert forall i | 0 <= i < |jobs| :: jobs[i].createdAt == Created(jobs)[i];
  }

  /** Whatever happened before, the job a poll tries first has the earliest creation call of all queued jobs;
      a later one is never tried first while an earlier one is queued. */
  lemma FirstCreatedFirstTried(workers: nat, run: seq<Action>, maxRetries: int, rows: seq<JobId>, id: JobId)
    requires Runnable(Init(workers), run, maxRetries)
    requires var jobs := After(Init(workers), run, maxRetries).jobs;
             OldestQueued(jobs, rows) && HasStatus(jobs, id, Queued)
    ensures rows != [] && rows[0] < |CreationTimes(run)| && id < |CreationTimes(run)|
    ensures CreationTimes(run)[rows[0]] <= CreationTimes(run)[id]
  {
    var jobs := After(Init(workers), run, maxRetries).jobs;
    RowsAreTheCreations(workers, run, maxRetries);
    hide After, Runnable, CreationTimes;
    if id in rows {
      var i :| 0 <= i < |rows| && rows[i] == id;
      assert i > 0 ==> jobs[rows[0]].createdAt <= jobs[rows[i]].createdAt;
    }
    assert HasStatus(jobs, rows[0], Queued);
  }

  /** A claim without competitors takes a queued job whose creation call came first. */
  method ClaimFirstCreated(repository: ScanJobRepository, now: Time, ghost workers: nat, ghost run: seq<Action>, ghost maxRetries: int)
    returns (claimed: Option<JobId>)
    requires Runnable(Init(workers), run, maxRetries) && repository.jobs == After(Init(workers), run, maxRetries).jobs
    modifies repository
    ensures claimed == None <==> forall id: JobId :: !HasStatus(old(repository.jobs), id, Queued)
    ensures claimed.Some? ==> claimed.value < |CreationTimes(run)| && HasStatus(old(repository.jobs), claimed.value, Queued)
    ensures claimed.Some? ==> forall id: JobId | HasStatus(old(repository.jobs), id, Queued) ::
              id < |CreationTimes(run)| && CreationTimes(run)[claimed.value] <= CreationTimes(run)[id]
  {
    RowsAreTheCreations(workers, run, maxRetries);
    hide After, Runnable, CreationTimes, StartJob, SelectOldest;
    claimed := repository.ClaimNextQueuedJob(now);
  }
}
