/** The scan job table and its repository (services/api-gateway/scan_jobs.py).

    The table is the sequence of its rows in insertion order; a fresh uuid is the next index.
    Every function from `InsertJob` to `WriteCancel` is the effect of one connection block, which
    the database runs atomically. */
module ScanJobs {
  import opened Wrappers
  import StableSort

  type JobId = nat
  type Time = int

  datatype Status = Queued | Running | Succeeded | Failed | Cancelled

  datatype LogLine =
    | LogQueued
    | LogRunning
    | LogFinished(text: string)
    | LogRetrying(attempt: nat, detail: string)
    | LogGivingUp(attempt: nat, detail: string, maxRetries: int)
    | LogCancelled

  datatype Job = Job(createdAt: Time, status: Status, retryCount: nat, startedAt: Option<Time>,
                     finishedAt: Option<Time>, logs: seq<LogLine>, resultSummary: Option<string>)

  type Table = seq<Job>

  predicate HasStatus(t: Table, id: JobId, status: Status) {
    id < |t| && t[id].status == status
  }

  function Lookup(t: Table, id: JobId): Option<Job> {
    if id < |t| then Some(t[id]) else None
  }

  // ----- one connection block each

  function InsertJob(t: Table, now: Time): Table {
    t + [Job(now, Queued, 0, None, None, [LogQueued], None)]
  }

  /** The log line is written whether or not a status update matched the row. */
  function AppendLog(t: Table, id: JobId, line: LogLine): Table {
    if id < |t| then t[id := t[id].(logs := t[id].logs + [line])] else t
  }

  function StartJob(t: Table, id: JobId, now: Time): Table {
    if HasStatus(t, id, Queued)
    then AppendLog(t[id := t[id].(status := Running, startedAt := Some(now))], id, LogRunning)
    else t
  }

  function FinishJob(t: Table, id: JobId, status: Status, summary: string, line: LogLine, now: Time): Table {
    AppendLog(
      if HasStatus(t, id, Running)
      then t[id := t[id].(status := status, finishedAt := Some(now), resultSummary := Some(summary))]
      else t,
      id, line)
  }

  function WriteFailure(t: Table, id: JobId, newRetryCount: nat, maxRetries: int, detail: string, now: Time): Table {
    if newRetryCount <= maxRetries then
      AppendLog(
        if HasStatus(t, id, Running)
        then t[id := t[id].(status := Queued, retryCount := newRetryCount, startedAt := None)]
        else t,
        id, LogRetrying(newRetryCount, detail))
    else
      AppendLog(
        if HasStatus(t, id, Running)
        then t[id := t[id].(status := Failed, retryCount := newRetryCount, finishedAt := Some(now),
                            resultSummary := Some(detail))]
        else t,
        id, LogGivingUp(newRetryCount, detail, maxRetries))
  }

  /** No guard on the status: the read that precedes this write is another connection block. */
  function WriteCancel(t: Table, id: JobId, now: Time): Table {
    if id < |t|
    then AppendLog(t[id := t[id].(status := Cancelled, finishedAt := Some(now))], id, LogCancelled)
    else t
  }

  predicate Cancellable(t: Table, id: JobId) {
    HasStatus(t, id, Queued) || HasStatus(t, id, Running)
  }

  // ----- SELECT id ... WHERE status = 'queued' ORDER BY created_at ASC LIMIT 10

  const CLAIM_BATCH := 10

  /** `rows` is an answer the database may give: the oldest queued ids, ties in any order. */
  ghost predicate OldestQueued(t: Table, rows: seq<JobId>) {
    && |rows| <= 10
    && (forall i | 0 <= i < |rows| :: HasStatus(t, rows[i], Queued))
    && (forall i, j | 0 <= i < j < |rows| :: rows[i] != rows[j] && t[rows[i]].createdAt <= t[rows[j]].createdAt)
    && (forall id: JobId | HasStatus(t, id, Queued) && id !in rows ::
          |rows| == 10 && forall i | 0 <= i < |rows| :: t[rows[i]].createdAt <= t[id].createdAt)
  }

  function QueuedIds(t: Table): (ids: seq<JobId>)
    ensures forall id: JobId :: id in ids <==> HasStatus(t, id, Queued)
    ensures forall i | 0 <= i < |ids| :: ids[i] < |t|
    ensures forall i, j | 0 <= i < j < |ids| :: ids[i] < ids[j]
  {
    if t == [] then [] else
      var n := |t| - 1;
      var before := QueuedIds(t[..n]);
      if t[n].status == Queued then before + [n] else before
  }

  function Older(t: Table): (JobId, JobId) -> bool {
    (a: JobId, b: JobId) => (if a < |t| then t[a].createdAt else 0) <= (if b < |t| then t[b].createdAt else 0)
  }

  function SelectOldest(t: Table): seq<JobId> {
    var sorted := StableSort.Sort(QueuedIds(t), Older(t));
    if |sorted| <= CLAIM_BATCH then sorted else sorted[..CLAIM_BATCH]
  }

  lemma OrderedIds(t: Table, sorted: seq<JobId>)
    requires sorted == StableSort.Sort(QueuedIds(t), Older(t))
    ensures forall id: JobId :: id in sorted <==> HasStatus(t, id, Queued)
    ensures forall i, j | 0 <= i < j < |sorted| :: sorted[i] != sorted[j]
    ensures forall i, j | 0 <= i < j < |sorted| :: Older(t)(sorted[i], sorted[j])
  {
    var ids, le := QueuedIds(t), Older(t);
    assert StableSort.TotalPreorder(le);
    StableSort.SortIsStable(ids, le);
    StableSort.SortKeepsDistinct(ids, le);
    StableSort.SortMembers(ids, le);
  }

  lemma PrefixIsAnAnswer(t: Table, sorted: seq<JobId>, rows: seq<JobId>)
    requires forall id: JobId :: id in sorted <==> HasStatus(t, id, Queued)
    requires forall i, j | 0 <= i < j < |sorted| :: sorted[i] != sorted[j] && Older(t)(sorted[i], sorted[j])
    requires rows <= sorted && |rows| <= CLAIM_BATCH && (|rows| == CLAIM_BATCH || rows == sorted)
    ensures OldestQueued(t, rows)
  {
    forall i | 0 <= i < |rows| ensures HasStatus(t, rows[i], Queued) {
      assert rows[i] == sorted[i] && sorted[i] in sorted;
    }
    forall i, j | 0 <= i < j < |rows|
      ensures rows[i] != rows[j] && t[rows[i]].createdAt <= t[rows[j]].createdAt
    {
      assert Older(t)(sorted[i], sorted[j]);
    }
    forall id: JobId | HasStatus(t, id, Queued) && id !in rows
      ensures |rows| == CLAIM_BATCH && forall i | 0 <= i < |rows| :: t[rows[i]].createdAt <= t[id].createdAt
    {
      var k :| 0 <= k < |sorted| && sorted[k] == id;
      assert k >= |rows|;
      forall i | 0 <= i < |rows| ensures t[rows[i]].createdAt <= t[id].createdAt {
        assert Older(t)(sorted[i], sorted[k]);
      }
    }
  }

  lemma SelectOldestIsAnAnswer(t: Table)
    ensures OldestQueued(t, SelectOldest(t))
    ensures SelectOldest(t) == [] <==> forall id: JobId :: !HasStatus(t, id, Queued)
  {
    var sorted := StableSort.Sort(QueuedIds(t), Older(t));
    OrderedIds(t, sorted);
    PrefixIsAnAnswer(t, sorted, SelectOldest(t));
    hide OldestQueued, Older, HasStatus;
    assert sorted != [] ==> sorted[0] in sorted;
  }

  // ----- the repository object

  /** Row `id` becomes `job`, everything else is as before. */
  ghost predicate RowBecomes(before: Table, after: Table, id: JobId, job: Job) {
    && id < |before| == |after| && after[id] == job
    && forall i | 0 <= i < |before| && i != id :: after[i] == before[i]
  }

  class ScanJobRepository {
    var jobs: Table

    constructor ()
      ensures jobs == []
    {
      jobs := [];
    }

    method CreateJob(now: Time) returns (id: JobId)
      modifies this
      ensures id == |old(jobs)| && jobs == InsertJob(old(jobs), now)
      ensures |jobs| == id + 1 && jobs[..id] == old(jobs)
      ensures jobs[id].createdAt == now && jobs[id].status == Queued && jobs[id].retryCount == 0 && jobs[id].logs == [LogQueued]
      ensures jobs[id].startedAt == None && jobs[id].finishedAt == None && jobs[id].resultSummary == None
    {
      id := |jobs|;
      jobs := jobs + [Job(now, Queued, 0, None, None, [LogQueued], None)];
    }

    method GetJob(id: JobId) returns (job: Option<Job>)
      ensures job == Lookup(jobs, id)
    {
      job := if id < |jobs| then Some(jobs[id]) else None;
    }

    method AppendLogLine(id: JobId, line: LogLine)
      modifies this
      ensures jobs == AppendLog(old(jobs), id, line)
    {
      if id < |jobs| {
        jobs := jobs[id := jobs[id].(logs := jobs[id].logs + [line])];
      }
    }

    method MarkRunning(id: JobId, now: Time) returns (started: bool)
      modifies this
      ensures started == HasStatus(old(jobs), id, Queued)
      ensures jobs == StartJob(old(jobs), id, now)
      ensures started ==> old(jobs)[id].status == Queued
                          && RowBecomes(old(jobs), jobs, id, old(jobs)[id].(status := Running, startedAt := Some(now), logs := old(jobs)[id].logs + [LogRunning]))
      ensures !started ==> jobs == old(jobs)
    {
      started := id < |jobs| && jobs[id].status == Queued;
      if started {
        jobs := jobs[id := jobs[id].(status := Running, startedAt := Some(now))];
        AppendLogLine(id, LogRunning);
      }
    }

    method MarkFinished(id: JobId, status: Status, summary: string, line: LogLine, now: Time)
      modifies this
      ensures jobs == FinishJob(old(jobs), id, status, summary, line, now)
      ensures id < |old(jobs)| ==>
                var was := old(jobs)[id];
                var logged := was.(logs := was.logs + [line]);
                RowBecomes(old(jobs), jobs, id, if was.status != Running then logged
                                                else logged.(status := status, finishedAt := Some(now), resultSummary := Some(summary)))
    {
      if id < |jobs| && jobs[id].status == Running {
        jobs := jobs[id := jobs[id].(status := status, finishedAt := Some(now), resultSummary := Some(summary))];
      }
      AppendLogLine(id, line);
    }

    /** Without interference the first row of the batch is still queued, so the oldest queued job is
        the one claimed, and `None` means that nothing is queued. */
    method ClaimNextQueuedJob(now: Time) returns (claimed: Option<JobId>)
      modifies this
      ensures claimed == None <==> forall id: JobId :: !HasStatus(old(jobs), id, Queued)
      ensures claimed == None ==> jobs == old(jobs)
      ensures claimed.Some? ==>
                && HasStatus(old(jobs), claimed.value, Queued)
                && (forall id: JobId | HasStatus(old(jobs), id, Queued) ::
                      old(jobs)[claimed.value].createdAt <= old(jobs)[id].createdAt)
                && SelectOldest(old(jobs)) != [] && SelectOldest(old(jobs))[0] == claimed.value
                && jobs == StartJob(old(jobs), claimed.value, now)
    {
      var rows := SelectOldest(jobs);
      SelectOldestIsAnAnswer(jobs);
      claimed := None;
      var k := 0;
      while k < |rows| && claimed == None
        invariant 0 <= k <= |rows|
        invariant claimed == None ==> k == 0 && jobs == old(jobs)
        invariant claimed.Some? ==> rows != [] && claimed.value == rows[0] && jobs == StartJob(old(jobs), rows[0], now)
      {
        var started := MarkRunning(rows[k], now);
        if started {
          claimed := Some(rows[k]);
        }
        k := k + 1;
      }
    }

    method RecordFailureAndMaybeRetry(id: JobId, detail: string, maxRetries: int, now: Time) returns (requeued: bool)
      modifies this
      ensures id >= |old(jobs)| ==> jobs == old(jobs) && !requeued
      ensures id < |old(jobs)| ==>
                && requeued == (old(jobs)[id].retryCount + 1 <= maxRetries)
                && jobs == WriteFailure(old(jobs), id, old(jobs)[id].retryCount + 1, maxRetries, detail, now)
      ensures id < |old(jobs)| ==>
                var was, attempt := old(jobs)[id], old(jobs)[id].retryCount + 1;
                var logged := was.(logs := was.logs + [if attempt <= maxRetries then LogRetrying(attempt, detail) else LogGivingUp(attempt, detail, maxRetries)]);
                RowBecomes(old(jobs), jobs, id, if was.status != Running then logged
                                                else if attempt <= maxRetries then logged.(status := Queued, retryCount := attempt, startedAt := None)
                                                else logged.(status := Failed, retryCount := attempt, finishedAt := Some(now), resultSummary := Some(detail)))
    {
      var job := GetJob(id);
      if job == None {
        return false;
      }
      var newRetryCount := job.value.retryCount + 1;
      if newRetryCount <= maxRetries {
        if jobs[id].status == Running {
          jobs := jobs[id := jobs[id].(status := Queued, retryCount := newRetryCount, startedAt := None)];
        }
        AppendLogLine(id, LogRetrying(newRetryCount, detail));
        return true;
      }
      if jobs[id].status == Running {
        jobs := jobs[id := jobs[id].(status := Failed, retryCount := newRetryCount, finishedAt := Some(now),
                                     resultSummary := Some(detail))];
      }
      AppendLogLine(id, LogGivingUp(newRetryCount, detail, maxRetries));
      return false;
    }

    method CancelJob(id: JobId, now: Time) returns (job: Option<Job>)
      modifies this
      ensures job.Some? <==> Cancellable(old(jobs), id)
      ensures job.Some? ==> jobs == WriteCancel(old(jobs), id, now) && HasStatus(jobs, id, Cancelled) && job.value == jobs[id]
      ensures job.Some? ==> RowBecomes(old(jobs), jobs, id, old(jobs)[id].(status := Cancelled, finishedAt := Some(now), logs := old(jobs)[id].logs + [LogCancelled]))
      ensures job == None ==> jobs == old(jobs)
    {
      job := GetJob(id);
      if job == None || (job.value.status != Queued && job.value.status != Running) {
        return None;
      }
      jobs := jobs[id := jobs[id].(status := Cancelled, finishedAt := Some(now))];
      AppendLogLine(id, LogCancelled);
      job := GetJob(id);
    }
  }
}
