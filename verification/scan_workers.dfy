/** Any number of scan workers and cancel requests sharing the job table
    (services/api-gateway/worker.py, `run_scan_job` in services/api-gateway/main.py).

    A step is one connection block of one participant; steps interleave freely. The two methods that
    read in one block and write in another (`record_failure_and_maybe_retry`, `cancel_job`) are two
    steps each. */
module ScanWorkers {
  import opened Wrappers
  import opened ScanJobs

  type WorkerId = nat

  /** Where a worker is in its poll loop. */
  datatype Pc =
    | Idle                                   // about to poll
    | Trying(rows: seq<JobId>)               // has a batch of queued ids, next to try is the first
    | Claimed(id: JobId)                     // its conditional UPDATE matched
    | Scanning(id: JobId)                    // has the job's input, runs the scan
    | Failing(id: JobId, newRetryCount: nat) // the scan failed, retry_count has been read
  {
    function Holds(): Option<JobId> {
      match this
      case Claimed(id) => Some(id)
      case Scanning(id) => Some(id)
      case Failing(id, _) => Some(id)
      case _ => None
    }
  }

  /** `starts` and `changes` count, per job, moves from queued to running and changes of status. */
  datatype State = State(jobs: Table, pcs: seq<Pc>, cancels: multiset<JobId>, starts: seq<nat>, changes: seq<nat>)

  function Init(workers: nat): State {
    State([], seq(workers, _ => Idle), multiset{}, [], [])
  }

  datatype Action =
    | Create(now: Time)
    | Select(w: WorkerId, rows: seq<JobId>)
    | TryStart(w: WorkerId, now: Time)
    | LoadInput(w: WorkerId)
    | FinishOk(w: WorkerId, summary: string, line: LogLine, now: Time)
    | ReadRetry(w: WorkerId)
    | WriteRetry(w: WorkerId, detail: string, now: Time)
    | Abandon(w: WorkerId)                   // exception or crash while holding a job
    | Restart(w: WorkerId)                   // the process dies between two tries and starts over
    | CancelRead(id: JobId)
    | CancelWrite(id: JobId, now: Time)
    | CancelAtOnce(id: JobId, now: Time)     // both blocks of a cancel with nothing in between

  ghost predicate Enabled(s: State, a: Action) {
    match a
    case Create(_) => true
    case Select(w, rows) => w < |s.pcs| && s.pcs[w].Idle? && OldestQueued(s.jobs, rows)
    case TryStart(w, _) => w < |s.pcs| && s.pcs[w].Trying? && s.pcs[w].rows != []
    case LoadInput(w) => w < |s.pcs| && s.pcs[w].Claimed?
    case FinishOk(w, _, _, _) => w < |s.pcs| && s.pcs[w].Scanning?
    case ReadRetry(w) => w < |s.pcs| && s.pcs[w].Scanning?
    case WriteRetry(w, _, _) => w < |s.pcs| && s.pcs[w].Failing?
    case Abandon(w) => w < |s.pcs| && s.pcs[w].Holds().Some?
    case Restart(w) => w < |s.pcs| && s.pcs[w].Trying?
    case CancelRead(id) => Cancellable(s.jobs, id)
    case CancelWrite(id, _) => id in s.cancels
    case CancelAtOnce(id, _) => Cancellable(s.jobs, id)
  }

  /** The job table an action leaves. */
  function JobsAfter(s: State, a: Action, maxRetries: int): (t: Table)
    requires Enabled(s, a)
    ensures |s.jobs| <= |t|
  {
    match a
    case Create(now) => InsertJob(s.jobs, now)
    case TryStart(w, now) => StartJob(s.jobs, s.pcs[w].rows[0], now)
    case FinishOk(w, summary, line, now) => FinishJob(s.jobs, s.pcs[w].id, Succeeded, summary, line, now)
    case WriteRetry(w, detail, now) =>
      WriteFailure(s.jobs, s.pcs[w].id, s.pcs[w].newRetryCount, maxRetries, detail, now)
    case CancelWrite(id, now) => WriteCancel(s.jobs, id, now)
    case CancelAtOnce(id, now) => WriteCancel(s.jobs, id, now)
    case _ => s.jobs
  }

  function PcAfter(s: State, w: WorkerId, a: Action): Pc
    requires Enabled(s, a) && w < |s.pcs|
  {
    match a
    case Select(_, rows) => if rows == [] then Idle else Trying(rows)
    case TryStart(_, _) =>
      if s.pcs[a.w].rows[0] < |s.jobs| && s.jobs[s.pcs[a.w].rows[0]].status == Queued then Claimed(s.pcs[a.w].rows[0])
      else if |s.pcs[a.w].rows| == 1 then Idle
      else Trying(s.pcs[a.w].rows[1..])
    case LoadInput(_) => if s.pcs[a.w].id < |s.jobs| then Scanning(s.pcs[a.w].id) else Idle
    case ReadRetry(_) =>
      if s.pcs[a.w].id < |s.jobs| then Failing(s.pcs[a.w].id, s.jobs[s.pcs[a.w].id].retryCount + 1) else Idle
    case FinishOk(_, _, _, _) => Idle
    case WriteRetry(_, _, _) => Idle
    case Abandon(_) => Idle
    case Restart(_) => Idle
    case _ => s.pcs[w]
  }

  predicate OfWorker(a: Action) {
    a.Select? || a.TryStart? || a.LoadInput? || a.FinishOk? || a.ReadRetry? || a.WriteRetry? || a.Abandon? || a.Restart?
  }

  function CountStarts(before: Table, after: Table, starts: seq<nat>): seq<nat>
    requires |starts| == |before| <= |after|
  {
    seq(|after|, i requires 0 <= i < |after| =>
      if i >= |before| then 0
      else if before[i].status == Queued && after[i].status == Running then starts[i] + 1 else starts[i])
  }

  function CountChanges(before: Table, after: Table, changes: seq<nat>): seq<nat>
    requires |changes| == |before| <= |after|
  {
    seq(|after|, i requires 0 <= i < |after| =>
      if i >= |before| then 0
      else if before[i].status != after[i].status then changes[i] + 1 else changes[i])
  }

  ghost predicate Sized(s: State) {
    |s.starts| == |s.changes| == |s.jobs|
  }

  ghost function Next(s: State, a: Action, maxRetries: int): (s': State)
    requires Sized(s) && Enabled(s, a)
    ensures Sized(s') && |s'.pcs| == |s.pcs|
  {
    var jobs := JobsAfter(s, a, maxRetries);
    State(jobs,
          if OfWorker(a) then s.pcs[a.w := PcAfter(s, a.w, a)] else s.pcs,
          if a.CancelRead? then s.cancels + multiset{a.id}
          else if a.CancelWrite? then s.cancels - multiset{a.id} else s.cancels,
          CountStarts(s.jobs, jobs, s.starts),
          CountChanges(s.jobs, jobs, s.changes))
  }

  ghost predicate Runnable(s: State, run: seq<Action>, maxRetries: int)
    requires Sized(s)
    decreases |run|
  {
    run == [] || (Enabled(s, run[0]) && Runnable(Next(s, run[0], maxRetries), run[1..], maxRetries))
  }

  /** The state a run ends in. */
  ghost function After(s: State, run: seq<Action>, maxRetries: int): (s': State)
    requires Sized(s) && Runnable(s, run, maxRetries)
    ensures Sized(s')
    decreases |run|
  {
    if run == [] then s else After(Next(s, run[0], maxRetries), run[1..], maxRetries)
  }

  // ----- the invariant

  function Budget(maxRetries: int): nat {
    if maxRetries < 0 then 1 else maxRetries + 1
  }

  /** What the counters of one job say about its row. */
  ghost predicate Accounted(j: Job, starts: nat, changes: nat, maxRetries: int) {
    match j.status
    case Queued => starts == j.retryCount < Budget(maxRetries) && changes == 2 * starts
    case Running => starts == j.retryCount + 1 <= Budget(maxRetries) && changes == 2 * starts - 1
    case Succeeded => starts == j.retryCount + 1 <= Budget(maxRetries) && changes == 2 * starts
    case Failed => starts == j.retryCount == Budget(maxRetries) && changes == 2 * starts
    case Cancelled => j.retryCount <= starts <= j.retryCount + 1 && starts <= Budget(maxRetries) && changes <= 2 * starts + 1
  }

  ghost predicate PcFits(t: Table, pc: Pc) {
    match pc
    case Idle => true
    case Trying(rows) => 0 < |rows| <= CLAIM_BATCH && forall i | 0 <= i < |rows| :: rows[i] < |t|
    case Claimed(id) => HasStatus(t, id, Running) || HasStatus(t, id, Cancelled)
    case Scanning(id) => HasStatus(t, id, Running) || HasStatus(t, id, Cancelled)
    case Failing(id, n) =>
      (HasStatus(t, id, Running) || HasStatus(t, id, Cancelled)) && n == t[id].retryCount + 1
  }

  ghost predicate HeldOnce(pcs: seq<Pc>) {
    forall v, w | 0 <= v < w < |pcs| :: pcs[v].Holds() == None || pcs[v].Holds() != pcs[w].Holds()
  }

  ghost predicate Inv(s: State, maxRetries: int) {
    && Sized(s)
    && (forall i | 0 <= i < |s.jobs| :: Accounted(s.jobs[i], s.starts[i], s.changes[i], maxRetries))
    && (forall w | 0 <= w < |s.pcs| :: PcFits(s.jobs, s.pcs[w]))
    && HeldOnce(s.pcs)
    && (forall id | id in s.cancels :: id < |s.jobs|)
  }

  lemma {:induction false} InitHolds(workers: nat, maxRetries: int)
    ensures Inv(Init(workers), maxRetries)
  {
    assert forall w | 0 <= w < workers :: Init(workers).pcs[w] == Idle;
  }

  /** The row an action may change; every other row stays as it is. */
  ghost function Target(s: State, a: Action): Option<JobId>
    requires Enabled(s, a)
  {
    match a
    case TryStart(w, _) => Some(s.pcs[w].rows[0])
    case FinishOk(w, _, _, _) => Some(s.pcs[w].id)
    case WriteRetry(w, _, _) => Some(s.pcs[w].id)
    case CancelWrite(id, _) => Some(id)
    case CancelAtOnce(id, _) => Some(id)
    case _ => None
  }

  lemma OtherRowsStay(s: State, a: Action, maxRetries: int)
    requires Sized(s) && Enabled(s, a)
    ensures forall i | 0 <= i < |s.jobs| && Target(s, a) != Some(i) :: JobsAfter(s, a, maxRetries)[i] == s.jobs[i]
    ensures !a.Create? ==> |JobsAfter(s, a, maxRetries)| == |s.jobs|
  {
  }

  /** A status move that the table functions can make, with the retry counter that goes with it. */
  lemma TargetRow(s: State, a: Action, maxRetries: int)
    requires Inv(s, maxRetries) && Enabled(s, a) && Target(s, a).Some?
    ensures var id := Target(s, a).value;
            id < |s.jobs| && id < |JobsAfter(s, a, maxRetries)| &&
            var j, j' := s.jobs[id], JobsAfter(s, a, maxRetries)[id];
            || (j'.status == j.status && j'.retryCount == j.retryCount)
            || (a.TryStart? && j.status == Queued && j'.status == Running && j'.retryCount == j.retryCount)
            || (a.FinishOk? && j.status == Running && j'.status == Succeeded && j'.retryCount == j.retryCount)
            || (a.WriteRetry? && j.status == Running && j'.status == Queued && j'.retryCount == j.retryCount + 1 <= maxRetries)
            || (a.WriteRetry? && j.status == Running && j'.status == Failed && j'.retryCount == j.retryCount + 1 > maxRetries)
            || (a.CancelWrite? && j.status != Cancelled && j'.status == Cancelled && j'.retryCount == j.retryCount)
            || (a.CancelAtOnce? && Cancellable(s.jobs, id) && j'.status == Cancelled && j'.retryCount == j.retryCount)
  {
    if OfWorker(a) {
      assert PcFits(s.jobs, s.pcs[a.w]);
    }
  }

  lemma CountersKeepAccount(s: State, a: Action, maxRetries: int)
    requires Inv(s, maxRetries) && Enabled(s, a)
    ensures var s' := Next(s, a, maxRetries);
            forall i | 0 <= i < |s'.jobs| :: Accounted(s'.jobs[i], s'.starts[i], s'.changes[i], maxRetries)
  {
    var s' := Next(s, a, maxRetries);
    OtherRowsStay(s, a, maxRetries);
    forall i | 0 <= i < |s'.jobs| ensures Accounted(s'.jobs[i], s'.starts[i], s'.changes[i], maxRetries) {
      if i < |s.jobs| {
        assert Accounted(s.jobs[i], s.starts[i], s.changes[i], maxRetries);
        if Target(s, a) == Some(i) {
          TargetRow(s, a, maxRetries);
        }
      }
    }
  }

  /** Whoever holds a job is the only one whose steps can take it out of `running` other than by
      cancelling it, so nobody else's place in the loop is invalidated. */
  lemma PcsKeepFit(s: State, a: Action, maxRetries: int)
    requires Inv(s, maxRetries) && Enabled(s, a)
    ensures var s' := Next(s, a, maxRetries);
            forall w | 0 <= w < |s'.pcs| :: PcFits(s'.jobs, s'.pcs[w])
  {
    var s' := Next(s, a, maxRetries);
    OtherRowsStay(s, a, maxRetries);
    forall w | 0 <= w < |s'.pcs| ensures PcFits(s'.jobs, s'.pcs[w]) {
      assert PcFits(s.jobs, s.pcs[w]);
      if Target(s, a).Some? {
        TargetRow(s, a, maxRetries);
      }
      if OfWorker(a) && a.w != w {
        assert PcFits(s.jobs, s.pcs[a.w]);
        assert s.pcs[w].Holds() == None || s.pcs[w].Holds() != s.pcs[a.w].Holds();
      }
    }
  }

  lemma JobsHeldOnce(s: State, a: Action, maxRetries: int)
    requires Inv(s, maxRetries) && Enabled(s, a)
    ensures HeldOnce(Next(s, a, maxRetries).pcs)
  {
    var s' := Next(s, a, maxRetries);
    forall v, w | 0 <= v < w < |s'.pcs| ensures s'.pcs[v].Holds() == None || s'.pcs[v].Holds() != s'.pcs[w].Holds() {
      assert s.pcs[v].Holds() == None || s.pcs[v].Holds() != s.pcs[w].Holds();
      assert PcFits(s.jobs, s.pcs[v]) && PcFits(s.jobs, s.pcs[w]);
    }
  }

  lemma StepKeepsInv(s: State, a: Action, maxRetries: int)
    requires Inv(s, maxRetries) && Enabled(s, a)
    ensures Inv(Next(s, a, maxRetries), maxRetries)
  {
    CountersKeepAccount(s, a, maxRetries);
    PcsKeepFit(s, a, maxRetries);
    JobsHeldOnce(s, a, maxRetries);
    OtherRowsStay(s, a, maxRetries);
  }

  lemma {:induction false} RunKeepsInv(s: State, run: seq<Action>, maxRetries: int)
    requires Inv(s, maxRetries) && Runnable(s, run, maxRetries)
    ensures Inv(After(s, run, maxRetries), maxRetries)
    decreases |run|
  {
    if run != [] {
      StepKeepsInv(s, run[0], maxRetries);
      RunKeepsInv(Next(s, run[0], maxRetries), run[1..], maxRetries);
    }
  }

  // ----- safety over every run

  /** No two workers ever hold the same job, a queued job is held by nobody, and a held job is still
      `running` unless it was cancelled underneath its worker. */
  lemma MutualExclusion(workers: nat, run: seq<Action>, maxRetries: int)
    requires Runnable(Init(workers), run, maxRetries)
    ensures var s := After(Init(workers), run, maxRetries);
            && (forall v, w | 0 <= v < |s.pcs| && 0 <= w < |s.pcs| && v != w && s.pcs[v].Holds().Some? ::
                  s.pcs[v].Holds() != s.pcs[w].Holds())
            && (forall w | 0 <= w < |s.pcs| && s.pcs[w].Holds().Some? ::
                  var id := s.pcs[w].Holds().value;
                  HasStatus(s.jobs, id, Running) || HasStatus(s.jobs, id, Cancelled))
  {
    InitHolds(workers, maxRetries);
    RunKeepsInv(Init(workers), run, maxRetries);
    var s := After(Init(workers), run, maxRetries);
    forall w | 0 <= w < |s.pcs| && s.pcs[w].Holds().Some?
      ensures var id := s.pcs[w].Holds().value;
              HasStatus(s.jobs, id, Running) || HasStatus(s.jobs, id, Cancelled)
    {
      assert PcFits(s.jobs, s.pcs[w]);
    }
  }

  /** Every job is started at most `maxRetries + 1` times, and the stored `retry_count` tells exactly
      how often: it is the number of starts, one less while an attempt is running or has succeeded. */
  lemma StartBudget(workers: nat, run: seq<Action>, maxRetries: int)
    requires 0 <= maxRetries && Runnable(Init(workers), run, maxRetries)
    ensures var s := After(Init(workers), run, maxRetries);
            forall i | 0 <= i < |s.jobs| ::
              && s.starts[i] <= maxRetries + 1
              && (s.jobs[i].status in {Queued, Failed} ==> s.starts[i] == s.jobs[i].retryCount)
              && (s.jobs[i].status in {Running, Succeeded} ==> s.starts[i] == s.jobs[i].retryCount + 1)
              && (s.jobs[i].status == Failed ==> s.starts[i] == maxRetries + 1)
  {
    InitHolds(workers, maxRetries);
    RunKeepsInv(Init(workers), run, maxRetries);
    var s := After(Init(workers), run, maxRetries);
    forall i | 0 <= i < |s.jobs|
      ensures s.starts[i] <= maxRetries + 1
      ensures s.jobs[i].status in {Queued, Failed} ==> s.starts[i] == s.jobs[i].retryCount
      ensures s.jobs[i].status in {Running, Succeeded} ==> s.starts[i] == s.jobs[i].retryCount + 1
      ensures s.jobs[i].status == Failed ==> s.starts[i] == maxRetries + 1
    {
      assert Accounted(s.jobs[i], s.starts[i], s.changes[i], maxRetries);
    }
  }

  /** The count read in one block is still the stored one when the next block writes it back, whatever
      ran in between: a failed attempt always adds exactly one, and the job goes on iff tries are left. */
  lemma NoLostRetry(workers: nat, run: seq<Action>, w: WorkerId, detail: string, now: Time, maxRetries: int)
    requires 0 <= maxRetries && Runnable(Init(workers), run, maxRetries)
    requires Enabled(After(Init(workers), run, maxRetries), WriteRetry(w, detail, now))
    ensures var s := After(Init(workers), run, maxRetries);
            var id := s.pcs[w].id;
            var t := JobsAfter(s, WriteRetry(w, detail, now), maxRetries);
            && id < |s.jobs| == |t|
            && (s.jobs[id].status == Running ==>
                  && t[id].retryCount == s.jobs[id].retryCount + 1 == s.starts[id]
                  && t[id].status == (if s.starts[id] <= maxRetries then Queued else Failed))
            && (s.jobs[id].status != Running ==> t[id] == s.jobs[id].(logs := t[id].logs))
  {
    InitHolds(workers, maxRetries);
    RunKeepsInv(Init(workers), run, maxRetries);
    var s := After(Init(workers), run, maxRetries);
    assert PcFits(s.jobs, s.pcs[w]);
    assert Accounted(s.jobs[s.pcs[w].id], s.starts[s.pcs[w].id], s.changes[s.pcs[w].id], maxRetries);
  }

  /** A cancelled job stays cancelled. */
  lemma {:induction false} CancelledIsAbsorbing(s: State, run: seq<Action>, maxRetries: int, id: JobId)
    requires Inv(s, maxRetries) && Runnable(s, run, maxRetries) && HasStatus(s.jobs, id, Cancelled)
    ensures HasStatus(After(s, run, maxRetries).jobs, id, Cancelled)
    decreases |run|
  {
    if run != [] {
      OtherRowsStay(s, run[0], maxRetries);
      if Target(s, run[0]) == Some(id) {
        TargetRow(s, run[0], maxRetries);
      }
      StepKeepsInv(s, run[0], maxRetries);
      CancelledIsAbsorbing(Next(s, run[0], maxRetries), run[1..], maxRetries, id);
    }
  }

  predicate Finished(t: Table, id: JobId) {
    HasStatus(t, id, Succeeded) || HasStatus(t, id, Failed)
  }

  /** The step that takes a job out of a final status is the write of a cancel request. */
  lemma FinishedIsLeftOnlyByRacingCancel(s: State, a: Action, maxRetries: int, id: JobId)
    requires Inv(s, maxRetries) && Enabled(s, a)
    requires Finished(s.jobs, id)
    ensures JobsAfter(s, a, maxRetries)[id].status != s.jobs[id].status <==> a.CancelWrite? && a.id == id
  {
    OtherRowsStay(s, a, maxRetries);
    if Target(s, a) == Some(id) {
      TargetRow(s, a, maxRetries);
    }
  }

  /** A request that comes after the job finished does not get past its read. */
  lemma {:induction false} NoCancelPendingStaysSo(s: State, run: seq<Action>, maxRetries: int, id: JobId)
    requires Inv(s, maxRetries) && Runnable(s, run, maxRetries) && Finished(s.jobs, id) && id !in s.cancels
    ensures HasStatus(After(s, run, maxRetries).jobs, id, s.jobs[id].status)
    decreases |run|
  {
    if run != [] {
      var s' := Next(s, run[0], maxRetries);
      FinishedIsLeftOnlyByRacingCancel(s, run[0], maxRetries, id);
      StepKeepsInv(s, run[0], maxRetries);
      assert id !in s'.cancels && s'.jobs == JobsAfter(s, run[0], maxRetries);
      hide Inv, Next, JobsAfter;
      NoCancelPendingStaysSo(s', run[1..], maxRetries, id);
    }
  }

  lemma PendingCancelOverwrites(s: State, maxRetries: int, id: JobId) returns (run: seq<Action>)
    requires Inv(s, maxRetries) && Finished(s.jobs, id) && id in s.cancels
    ensures Runnable(s, run, maxRetries) && HasStatus(After(s, run, maxRetries).jobs, id, Cancelled)
  {
    var a := CancelWrite(id, 0);
    var s' := Next(s, a, maxRetries);
    TargetRow(s, a, maxRetries);
    assert s'.jobs[id].status == Cancelled;
    hide Inv, Next, JobsAfter, Enabled;
    run := [a];
    assert run[1..] == [] && After(s', [], maxRetries) == s' && Runnable(s', [], maxRetries);
  }

  ghost predicate KeepsStatus(s: State, run: seq<Action>, maxRetries: int, id: JobId)
    requires Sized(s) && id < |s.jobs|
  {
    Runnable(s, run, maxRetries) ==> HasStatus(After(s, run, maxRetries).jobs, id, s.jobs[id].status)
  }

  lemma OnlyReadsAdd(s: State, a: Action, maxRetries: int, id: JobId)
    requires Sized(s) && Enabled(s, a) && id !in s.cancels && id in Next(s, a, maxRetries).cancels
    ensures a == CancelRead(id) && Cancellable(s.jobs, id)
  {
    hide JobsAfter, PcAfter, CountStarts, CountChanges;
  }

  /** A pending cancel goes back to a moment of the run at which it read the job as queued or running. */
  lemma {:induction false} PendingCancelHasRead(s: State, run: seq<Action>, maxRetries: int, id: JobId) returns (i: nat)
    requires Sized(s) && Runnable(s, run, maxRetries) && id !in s.cancels && id in After(s, run, maxRetries).cancels
    ensures i < |run| && run[i] == CancelRead(id)
    ensures Runnable(s, run[..i], maxRetries) && Cancellable(After(s, run[..i], maxRetries).jobs, id)
    decreases |run|
  {
    NoStepYet(s, maxRetries);
    assert run != [];
    FirstStep(s, run, maxRetries);
    var a := run[0];
    var s' := Next(s, a, maxRetries);
    hide *;
    if id in s'.cancels {
      OnlyReadsAdd(s, a, maxRetries, id);
      assert run[..0] == [];
      i := 0;
    } else {
      var j := PendingCancelHasRead(s', run[1..], maxRetries, id);
      Prepend(s, a, run[1..][..j], maxRetries);
      i := j + 1;
      assert run[..i] == [a] + run[1..][..j];
    }
  }

  lemma NoStepYet(s: State, maxRetries: int)
    requires Sized(s)
    ensures Runnable(s, [], maxRetries) && After(s, [], maxRetries) == s
  {
  }

  lemma FirstStep(s: State, run: seq<Action>, maxRetries: int)
    requires Sized(s) && Runnable(s, run, maxRetries) && run != []
    ensures Enabled(s, run[0]) && Runnable(Next(s, run[0], maxRetries), run[1..], maxRetries)
    ensures After(s, run, maxRetries) == After(Next(s, run[0], maxRetries), run[1..], maxRetries)
  {
    hide Next, Enabled;
  }

  lemma StatusLost(s: State, run: seq<Action>, maxRetries: int, id: JobId)
    requires Sized(s) && Finished(s.jobs, id) && Runnable(s, run, maxRetries) && HasStatus(After(s, run, maxRetries).jobs, id, Cancelled)
    ensures !KeepsStatus(s, run, maxRetries, id)
  {
  }

  /** A finished job keeps its status in every run from here on if and only if no cancel request that has
      read it still has to write. */
  lemma FinishedIsFinalIff(s: State, maxRetries: int, id: JobId)
    requires Inv(s, maxRetries) && Finished(s.jobs, id)
    ensures (forall run: seq<Action> :: KeepsStatus(s, run, maxRetries, id)) <==> id !in s.cancels
  {
    assert Sized(s) && id < |s.jobs|;
    hide Inv, Finished, Runnable, After;
    if id in s.cancels {
      var run := PendingCancelOverwrites(s, maxRetries, id);
      assert !KeepsStatus(s, run, maxRetries, id) by { StatusLost(s, run, maxRetries, id); }
    } else {
      forall run: seq<Action> ensures KeepsStatus(s, run, maxRetries, id) {
        if Runnable(s, run, maxRetries) {
          NoCancelPendingStaysSo(s, run, maxRetries, id);
        }
      }
    }
  }

  ghost predicate CancelsAtOnce(run: seq<Action>) {
    forall i | 0 <= i < |run| :: !run[i].CancelRead?
  }

  ghost predicate WithinChangeBudget(s: State, maxRetries: int) {
    |s.changes| == |s.jobs| && forall i | 0 <= i < |s.jobs| :: s.changes[i] <= 2 * Budget(maxRetries)
  }

  lemma StepWithinChangeBudget(s: State, a: Action, maxRetries: int)
    requires Inv(s, maxRetries) && Enabled(s, a) && !a.CancelRead?
    requires s.cancels == multiset{} && WithinChangeBudget(s, maxRetries)
    ensures var s' := Next(s, a, maxRetries);
            s'.cancels == multiset{} && WithinChangeBudget(s', maxRetries)
  {
    var s' := Next(s, a, maxRetries);
    CountersKeepAccount(s, a, maxRetries);
    OtherRowsStay(s, a, maxRetries);
    forall i | 0 <= i < |s'.jobs| ensures s'.changes[i] <= 2 * Budget(maxRetries) {
      assert Accounted(s'.jobs[i], s'.starts[i], s'.changes[i], maxRetries);
      if i < |s.jobs| {
        assert Accounted(s.jobs[i], s.starts[i], s.changes[i], maxRetries);
        if Target(s, a) == Some(i) {
          TargetRow(s, a, maxRetries);
        }
      }
    }
  }

  /** When no cancel request is interrupted between its two blocks, a job changes status at most
      `2 * (maxRetries + 1)` times ... */
  lemma {:induction false} ChangeBudget(s: State, run: seq<Action>, maxRetries: int)
    requires Inv(s, maxRetries) && Runnable(s, run, maxRetries) && CancelsAtOnce(run)
    requires s.cancels == multiset{} && WithinChangeBudget(s, maxRetries)
    ensures WithinChangeBudget(After(s, run, maxRetries), maxRetries)
    decreases |run|
  {
    if run != [] {
      var rest := run[1..];
      assert !run[0].CancelRead? && forall i | 0 <= i < |rest| :: rest[i] == run[i + 1];
      StepKeepsInv(s, run[0], maxRetries);
      StepWithinChangeBudget(s, run[0], maxRetries);
      ChangeBudget(Next(s, run[0], maxRetries), rest, maxRetries);
    }
  }

  /** ... and in any run at most once more. */
  lemma ChangeBudgetWithRaces(workers: nat, run: seq<Action>, maxRetries: int)
    requires Runnable(Init(workers), run, maxRetries)
    ensures var s := After(Init(workers), run, maxRetries);
            forall i | 0 <= i < |s.jobs| ::
              && s.changes[i] <= 2 * Budget(maxRetries) + 1
              && (s.changes[i] == 2 * Budget(maxRetries) + 1 ==> s.jobs[i].status == Cancelled)
              && (CancelsAtOnce(run) ==> s.changes[i] <= 2 * Budget(maxRetries))
  {
    InitHolds(workers, maxRetries);
    RunKeepsInv(Init(workers), run, maxRetries);
    if CancelsAtOnce(run) {
      ChangeBudget(Init(workers), run, maxRetries);
    }
    var s := After(Init(workers), run, maxRetries);
    forall i | 0 <= i < |s.jobs|
      ensures s.changes[i] <= 2 * Budget(maxRetries) + 1
      ensures s.changes[i] == 2 * Budget(maxRetries) + 1 ==> s.jobs[i].status == Cancelled
    {
      assert Accounted(s.jobs[i], s.starts[i], s.changes[i], maxRetries);
    }
  }

  /** The run that uses the extra change: with no retries, a cancel request reads `running`, the scan
      succeeds, and the unguarded write then turns `succeeded` into `cancelled`. */
  lemma RacingCancelOverwritesSuccess() returns (run: seq<Action>)
    ensures Runnable(Init(1), run, 0) && var s := After(Init(1), run, 0);
            |s.jobs| == 1 && s.jobs[0].status == Cancelled && s.jobs[0].resultSummary == Some("ok") && s.changes == [3]
  {
    var s0, s1 := Init(1), State([QueuedRow()], [Idle], multiset{}, [0], [0]);
    assert OldestQueued(s1.jobs, [0]);
    assert Next(s0, Create(0), 0) == s1;
    ClaimIsUnderWay(s1);
    var s4 := ScanningState(s1, 0, [0], 1, 0);
    var late := CancelArrivesLate(s4);
    ClaimThen(s1, 0, [0], 1, 0, late);
    var steps := ClaimSteps(0, [0], 1, late);
    Prepend(s0, Create(0), steps, 0);
    run := [Create(0)] + steps;
  }

  ghost function QueuedRow(): Job {
    Job(0, Queued, 0, None, None, [LogQueued], None)
  }

  ghost function RunningRow(): Job {
    Job(0, Running, 0, Some(1), None, [LogQueued, LogRunning], None)
  }

  lemma ClaimIsUnderWay(s1: State)
    requires s1 == State([QueuedRow()], [Idle], multiset{}, [0], [0]) && OldestQueued(s1.jobs, [0])
    ensures ScanningState(s1, 0, [0], 1, 0) == State([RunningRow()], [Scanning(0)], multiset{}, [1], [1])
  {
    var s2 := Next(s1, Select(0, [0]), 0);
    assert s2 == State([QueuedRow()], [Trying([0])], multiset{}, [0], [0]);
    assert [LogQueued] + [LogRunning] == [LogQueued, LogRunning];
    assert StartJob([QueuedRow()], 0, 1) == [RunningRow()];
    var s3 := Next(s2, TryStart(0, 1), 0);
    assert s3 == State([RunningRow()], [Claimed(0)], multiset{}, [1], [1]);
    assert Next(s3, LoadInput(0), 0) == State([RunningRow()], [Scanning(0)], multiset{}, [1], [1]);
  }

  lemma CancelArrivesLate(s4: State) returns (late: seq<Action>)
    requires s4 == State([RunningRow()], [Scanning(0)], multiset{}, [1], [1])
    ensures Runnable(s4, late, 0) && var s := After(s4, late, 0);
            |s.jobs| == 1 && s.jobs[0].status == Cancelled && s.jobs[0].resultSummary == Some("ok") && s.changes == [3]
  {
    var s5 := State([RunningRow()], [Scanning(0)], multiset{0}, [1], [1]);
    assert Next(s4, CancelRead(0), 0) == s5;
    var s6 := Next(s5, FinishOk(0, "ok", LogFinished("ok"), 2), 0);
    assert s6.jobs[0].status == Succeeded && s6.jobs[0].resultSummary == Some("ok");
    assert s6.changes == [2] && s6.cancels == multiset{0};
    var s7 := Next(s6, CancelWrite(0, 3), 0);
    assert s7.jobs[0].status == Cancelled && s7.changes == [3];
    Prepend(s6, CancelWrite(0, 3), [], 0);
    Prepend(s5, FinishOk(0, "ok", LogFinished("ok"), 2), [CancelWrite(0, 3)], 0);
    late := [FinishOk(0, "ok", LogFinished("ok"), 2)] + [CancelWrite(0, 3)];
    Prepend(s4, CancelRead(0), late, 0);
    late := [CancelRead(0)] + late;
  }

  lemma Prepend(s: State, a: Action, rest: seq<Action>, maxRetries: int)
    requires Sized(s) && Enabled(s, a) && Runnable(Next(s, a, maxRetries), rest, maxRetries)
    ensures Runnable(s, [a] + rest, maxRetries)
    ensures After(s, [a] + rest, maxRetries) == After(Next(s, a, maxRetries), rest, maxRetries)
  {
    assert ([a] + rest)[1..] == rest;
  }

  // ----- claiming, as a piece of a run

  /** The state in which worker `w`, having read the batch `rows`, runs the first job of it. */
  ghost function ScanningState(s: State, w: WorkerId, rows: seq<JobId>, now: Time, maxRetries: int): (s': State)
    requires Sized(s) && w < |s.pcs| && s.pcs[w] == Idle && OldestQueued(s.jobs, rows) && rows != []
    ensures Sized(s') && s'.jobs == StartJob(s.jobs, rows[0], now) && s'.pcs == s.pcs[w := Scanning(rows[0])]
    ensures rows[0] < |s'.jobs|
  {
    assert HasStatus(s.jobs, rows[0], Queued);
    var s1 := Next(s, Select(w, rows), maxRetries);
    var s2 := Next(s1, TryStart(w, now), maxRetries);
    assert s2.pcs[w] == Claimed(rows[0]);
    Next(s2, LoadInput(w), maxRetries)
  }

  ghost function ClaimSteps(w: WorkerId, rows: seq<JobId>, now: Time, rest: seq<Action>): seq<Action> {
    [Select(w, rows)] + ([TryStart(w, now)] + ([LoadInput(w)] + rest))
  }

  lemma ClaimThen(s: State, w: WorkerId, rows: seq<JobId>, now: Time, maxRetries: int, rest: seq<Action>)
    requires Sized(s) && w < |s.pcs| && s.pcs[w] == Idle && OldestQueued(s.jobs, rows) && rows != []
    requires Runnable(ScanningState(s, w, rows, now, maxRetries), rest, maxRetries)
    ensures Runnable(s, ClaimSteps(w, rows, now, rest), maxRetries)
    ensures After(s, ClaimSteps(w, rows, now, rest), maxRetries) == After(ScanningState(s, w, rows, now, maxRetries), rest, maxRetries)
  {
    assert HasStatus(s.jobs, rows[0], Queued);
    var s1 := Next(s, Select(w, rows), maxRetries);
    var s2 := Next(s1, TryStart(w, now), maxRetries);
    assert s2.pcs[w] == Claimed(rows[0]);
    var loaded := [LoadInput(w)] + rest;
    Prepend(s2, LoadInput(w), rest, maxRetries);
    var tried := [TryStart(w, now)] + loaded;
    Prepend(s1, TryStart(w, now), loaded, maxRetries);
    Prepend(s, Select(w, rows), tried, maxRetries);
  }

  // ----- termination over every interleaving

  /** Everything but new requests from outside, restarts, and polls of an empty queue. */
  predicate Progress(a: Action) {
    !a.Create? && !a.CancelRead? && !a.Restart? && !(a.Select? && a.rows == [])
  }

  function Sum(xs: seq<nat>): nat {
    if xs == [] then 0 else xs[0] + Sum(xs[1..])
  }

  lemma {:induction false} SumMonotone(xs: seq<nat>, ys: seq<nat>)
    requires |xs| == |ys| && forall i | 0 <= i < |xs| :: xs[i] <= ys[i]
    ensures Sum(xs) <= Sum(ys)
    ensures (exists i :: 0 <= i < |xs| && xs[i] < ys[i]) ==> Sum(xs) < Sum(ys)
  {
    if xs != [] {
      SumMonotone(xs[1..], ys[1..]);
      if i :| 0 <= i < |xs| && xs[i] < ys[i] {
        if i > 0 {
          assert xs[1..][i - 1] < ys[1..][i - 1];
        }
      }
    }
  }

  lemma {:induction false} SumAtMost(xs: seq<nat>, bound: nat)
    requires forall i | 0 <= i < |xs| :: xs[i] <= bound
    ensures Sum(xs) <= bound * |xs|
  {
    if xs != [] {
      SumAtMost(xs[1..], bound);
      assert bound * |xs| == bound * |xs[1..]| + bound;
    }
  }

  const TOP_RANK := 30

  /** How far a worker is from its next status change; a batch with an outdated row ranks above idle,
      because failing through it ends in idle again. */
  ghost function Rank(t: Table, pc: Pc): (r: nat)
  {
    match pc
    case Idle => CLAIM_BATCH + 2
    case Trying(rows) =>
      if forall i | 0 <= i < |rows| :: HasStatus(t, rows[i], Queued)
      then if |rows| <= CLAIM_BATCH then |rows| else TOP_RANK
      else if |rows| <= CLAIM_BATCH then CLAIM_BATCH + 3 + |rows| else TOP_RANK
    case Failing(_, _) => TOP_RANK - 4
    case Scanning(_) => TOP_RANK - 3
    case Claimed(_) => TOP_RANK - 2
  }

  ghost function Ranks(t: Table, pcs: seq<Pc>): seq<nat> {
    seq(|pcs|, w requires 0 <= w < |pcs| => Rank(t, pcs[w]))
  }

  /** Status changes job `i` can still make. */
  ghost function Left(s: State, maxRetries: int): seq<nat>
    requires Sized(s)
  {
    seq(|s.jobs|, i requires 0 <= i < |s.jobs| =>
      if s.changes[i] <= 2 * Budget(maxRetries) + 1 then 2 * Budget(maxRetries) + 1 - s.changes[i] else 0)
  }

  ghost function Measure(s: State, maxRetries: int): nat
    requires Sized(s)
  {
    Sum(Left(s, maxRetries)) * (TOP_RANK * |s.pcs| + 2) + Sum(Ranks(s.jobs, s.pcs)) + |s.cancels|
  }

  lemma RanksBounded(t: Table, pcs: seq<Pc>)
    ensures Sum(Ranks(t, pcs)) <= TOP_RANK * |pcs|
  {
    SumAtMost(Ranks(t, pcs), TOP_RANK);
  }

  /** A step that changes a status outweighs anything it does to the ranks. */
  lemma ChangeDecreases(s: State, a: Action, maxRetries: int, id: JobId)
    requires Inv(s, maxRetries) && Enabled(s, a) && Progress(a)
    requires id < |s.jobs| && JobsAfter(s, a, maxRetries)[id].status != s.jobs[id].status
    ensures Measure(Next(s, a, maxRetries), maxRetries) < Measure(s, maxRetries)
  {
    var s' := Next(s, a, maxRetries);
    LeftShrinks(s, a, maxRetries, id);
    assert |s'.cancels| <= |s.cancels| by { hide JobsAfter, PcAfter, CountStarts, CountChanges, Inv; }
    hide *;
    RanksBounded(s'.jobs, s'.pcs);
    MeasureIs(s, maxRetries);
    MeasureIs(s', maxRetries);
    Outweighs(Sum(Left(s', maxRetries)), Sum(Left(s, maxRetries)), TOP_RANK * |s.pcs|, Sum(Ranks(s'.jobs, s'.pcs)));
  }

  lemma MeasureIs(s: State, maxRetries: int)
    requires Sized(s)
    ensures Measure(s, maxRetries) == Sum(Left(s, maxRetries)) * (TOP_RANK * |s.pcs| + 2) + Sum(Ranks(s.jobs, s.pcs)) + |s.cancels|
  {
  }

  lemma LeftShrinks(s: State, a: Action, maxRetries: int, id: JobId)
    requires Inv(s, maxRetries) && Enabled(s, a) && Progress(a)
    requires id < |s.jobs| && JobsAfter(s, a, maxRetries)[id].status != s.jobs[id].status
    ensures Sum(Left(Next(s, a, maxRetries), maxRetries)) < Sum(Left(s, maxRetries))
  {
    var s' := Next(s, a, maxRetries);
    StepKeepsInv(s, a, maxRetries);
    OtherRowsStay(s, a, maxRetries);
    assert Accounted(s'.jobs[id], s'.starts[id], s'.changes[id], maxRetries);
    var left, left' := Left(s, maxRetries), Left(s', maxRetries);
    assert left'[id] < left[id];
    assert forall i | 0 <= i < |left| :: left'[i] <= left[i];
    hide *;
    SumMonotone(left', left);
  }

  lemma Outweighs(less: nat, more: nat, bound: nat, ranks: nat)
    requires less < more && ranks <= bound
    ensures less * (bound + 2) + ranks + 1 < more * (bound + 2)
  {
    assert (less + 1) * (bound + 2) <= more * (bound + 2);
  }

  lemma SameStatusSameRank(t: Table, t': Table, pc: Pc)
    requires |t| == |t'| && forall i | 0 <= i < |t| :: t[i].status == t'[i].status
    ensures Rank(t, pc) == Rank(t', pc)
  {
    if pc.Trying? {
      assert forall i | 0 <= i < |pc.rows| :: HasStatus(t, pc.rows[i], Queued) == HasStatus(t', pc.rows[i], Queued);
    }
  }

  lemma QuietWorkerStep(s: State, a: Action, maxRetries: int)
    requires Inv(s, maxRetries) && Enabled(s, a) && Progress(a) && OfWorker(a)
    requires forall i | 0 <= i < |s.jobs| :: JobsAfter(s, a, maxRetries)[i].status == s.jobs[i].status
    ensures Rank(s.jobs, PcAfter(s, a.w, a)) < Rank(s.jobs, s.pcs[a.w])
  {
    assert PcFits(s.jobs, s.pcs[a.w]);
    if a.TryStart? {
      var rows := s.pcs[a.w].rows;
      assert JobsAfter(s, a, maxRetries)[rows[0]].status == s.jobs[rows[0]].status;
      assert !HasStatus(s.jobs, rows[0], Queued);
    }
  }

  lemma QuietStepDecreases(s: State, a: Action, maxRetries: int)
    requires Inv(s, maxRetries) && Enabled(s, a) && Progress(a) && (OfWorker(a) || a.CancelWrite?)
    requires !a.CancelAtOnce? && |JobsAfter(s, a, maxRetries)| == |s.jobs|
    requires forall i | 0 <= i < |s.jobs| :: JobsAfter(s, a, maxRetries)[i].status == s.jobs[i].status
    ensures Measure(Next(s, a, maxRetries), maxRetries) < Measure(s, maxRetries)
  {
    var s' := Next(s, a, maxRetries);
    assert Left(s', maxRetries) == Left(s, maxRetries);
    var ranks, ranks' := Ranks(s.jobs, s.pcs), Ranks(s'.jobs, s'.pcs);
    forall w | 0 <= w < |s.pcs| && (!OfWorker(a) || w != a.w) ensures ranks'[w] == ranks[w] {
      SameStatusSameRank(s.jobs, s'.jobs, s.pcs[w]);
    }
    if OfWorker(a) {
      QuietWorkerStep(s, a, maxRetries);
      SameStatusSameRank(s.jobs, s'.jobs, s'.pcs[a.w]);
      assert ranks'[a.w] < ranks[a.w];
    } else {
      assert |s'.cancels| < |s.cancels|;
    }
    SumMonotone(ranks', ranks);
  }

  /** Every step of the system itself lowers the measure, whichever participant makes it. */
  lemma ProgressDecreases(s: State, a: Action, maxRetries: int)
    requires Inv(s, maxRetries) && Enabled(s, a) && Progress(a)
    ensures Measure(Next(s, a, maxRetries), maxRetries) < Measure(s, maxRetries)
  {
    var jobs := JobsAfter(s, a, maxRetries);
    OtherRowsStay(s, a, maxRetries);
    hide Inv, Measure, Next, JobsAfter;
    if a.CancelAtOnce? {
      CancelChanges(s, a, maxRetries);
      ChangeDecreases(s, a, maxRetries, a.id);
    } else if i: nat :| i < |s.jobs| && jobs[i].status != s.jobs[i].status {
      ChangeDecreases(s, a, maxRetries, i);
    } else {
      QuietStepDecreases(s, a, maxRetries);
    }
  }

  lemma CancelChanges(s: State, a: Action, maxRetries: int)
    requires Enabled(s, a) && a.CancelAtOnce?
    ensures a.id < |s.jobs| == |JobsAfter(s, a, maxRetries)| && JobsAfter(s, a, maxRetries)[a.id].status != s.jobs[a.id].status
  {
  }

  /** So once no new requests arrive, every interleaving stops after at most `Measure` steps. */
  lemma {:induction false} EveryRunEnds(s: State, run: seq<Action>, maxRetries: int)
    requires Inv(s, maxRetries) && Runnable(s, run, maxRetries)
    requires forall i | 0 <= i < |run| :: Progress(run[i])
    ensures |run| <= Measure(s, maxRetries)
    decreases |run|
  {
    if run != [] {
      ProgressDecreases(s, run[0], maxRetries);
      StepKeepsInv(s, run[0], maxRetries);
      EveryRunEnds(Next(s, run[0], maxRetries), run[1..], maxRetries);
    }
  }

  /** And it stops only when the queue is drained: nothing queued, nobody holding a job, and no
      cancel request half done. */
  lemma StuckMeansDrained(s: State, maxRetries: int)
    requires Inv(s, maxRetries) && |s.pcs| > 0
    requires forall a | Progress(a) :: !Enabled(s, a)
    ensures s.cancels == multiset{}
    ensures forall w | 0 <= w < |s.pcs| :: s.pcs[w] == Idle
    ensures forall id: JobId :: !HasStatus(s.jobs, id, Queued)
  {
    assert forall id | id in s.cancels :: Enabled(s, CancelWrite(id, 0)) && Progress(CancelWrite(id, 0));
    forall w: nat | w < |s.pcs| ensures s.pcs[w] == Idle {
      assert PcFits(s.jobs, s.pcs[w]);
      assert !Enabled(s, TryStart(w, 0));
      assert !Enabled(s, Abandon(w));
    }
    var rows := SelectOldest(s.jobs);
    SelectOldestIsAnAnswer(s.jobs);
    assert s.pcs[0] == Idle && Enabled(s, Select(0, rows));
    assert !Progress(Select(0, rows));
  }

  // ----- the worker process itself

  /** What running the scan came to. */
  datatype Outcome =
    | ScanSucceeded(summary: string, line: LogLine)
    | ScanRejected(detail: string)           // an HTTPException
    | ScanCrashed                            // any other exception

  method RunScanJob(repository: ScanJobRepository, id: JobId, outcome: Outcome, maxRetries: int, now: Time)
    modifies repository
    ensures id >= |old(repository.jobs)| ==> repository.jobs == old(repository.jobs)
    ensures id < |old(repository.jobs)| ==>
              repository.jobs == ScanResult(old(repository.jobs), id, outcome, maxRetries, now)
  {
    var input := repository.GetJob(id);
    if input == None {
      return;
    }
    match outcome
    case ScanSucceeded(summary, line) =>
      repository.MarkFinished(id, Succeeded, summary, line, now);
    case ScanRejected(detail) =>
      var _ := repository.RecordFailureAndMaybeRetry(id, detail, maxRetries, now);
    case ScanCrashed =>
  }

  /** The steps of one pass of worker `w` through its loop. */
  ghost function PollSteps(w: WorkerId, t: Table, outcome: Outcome, now: Time): seq<Action> {
    var rows := SelectOldest(t);
    if rows == [] then [Select(w, rows)]
    else ClaimSteps(w, rows, now, HoldingSteps(w, outcome, now))
  }

  ghost function HoldingSteps(w: WorkerId, outcome: Outcome, now: Time): seq<Action> {
    match outcome
    case ScanSucceeded(summary, line) => [FinishOk(w, summary, line, now)]
    case ScanRejected(detail) => [ReadRetry(w)] + [WriteRetry(w, detail, now)]
    case ScanCrashed => [Abandon(w)]
  }

  /** The table after the scan of job `id`. */
  function ScanResult(t: Table, id: JobId, outcome: Outcome, maxRetries: int, now: Time): Table
    requires id < |t|
  {
    match outcome
    case ScanSucceeded(summary, line) => FinishJob(t, id, Succeeded, summary, line, now)
    case ScanRejected(detail) => WriteFailure(t, id, t[id].retryCount + 1, maxRetries, detail, now)
    case ScanCrashed => t
  }

  /** One pass of the loop, run alone, is exactly a run of the transition system above. */
  method PollOnce(repository: ScanJobRepository, outcome: Outcome, maxRetries: int, now: Time, ghost s: State, ghost w: WorkerId)
    returns (worked: bool)
    requires Inv(s, maxRetries) && s.jobs == repository.jobs && w < |s.pcs| && s.pcs[w] == Idle
    modifies repository
    ensures worked <==> exists id: JobId :: HasStatus(old(repository.jobs), id, Queued)
    ensures Runnable(s, PollSteps(w, s.jobs, outcome, now), maxRetries)
    ensures var s' := After(s, PollSteps(w, s.jobs, outcome, now), maxRetries);
            s'.jobs == repository.jobs && s'.pcs == s.pcs && Inv(s', maxRetries)
  {
    var claimed := repository.ClaimNextQueuedJob(now);
    worked := claimed.Some?;
    if claimed.Some? {
      RunScanJob(repository, claimed.value, outcome, maxRetries, now);
    }
    PollIsARun(s, w, outcome, maxRetries, now);
    RunKeepsInv(s, PollSteps(w, s.jobs, outcome, now), maxRetries);
  }

  lemma HoldingIsARun(s: State, w: WorkerId, outcome: Outcome, maxRetries: int, now: Time)
    requires Sized(s) && w < |s.pcs| && s.pcs[w].Scanning? && s.pcs[w].id < |s.jobs|
    ensures Runnable(s, HoldingSteps(w, outcome, now), maxRetries)
    ensures var s' := After(s, HoldingSteps(w, outcome, now), maxRetries);
            s'.pcs == s.pcs[w := Idle] && s'.jobs == ScanResult(s.jobs, s.pcs[w].id, outcome, maxRetries, now)
  {
    match outcome
    case ScanSucceeded(summary, line) =>
      Prepend(s, FinishOk(w, summary, line, now), [], maxRetries);
    case ScanRejected(detail) =>
      var s' := Next(s, ReadRetry(w), maxRetries);
      assert s'.pcs[w] == Failing(s.pcs[w].id, s.jobs[s.pcs[w].id].retryCount + 1);
      Prepend(s', WriteRetry(w, detail, now), [], maxRetries);
      Prepend(s, ReadRetry(w), [WriteRetry(w, detail, now)], maxRetries);
    case ScanCrashed =>
      Prepend(s, Abandon(w), [], maxRetries);
  }

  lemma PollIsARun(s: State, w: WorkerId, outcome: Outcome, maxRetries: int, now: Time)
    requires Sized(s) && w < |s.pcs| && s.pcs[w] == Idle
    ensures Runnable(s, PollSteps(w, s.jobs, outcome, now), maxRetries)
    ensures var s' := After(s, PollSteps(w, s.jobs, outcome, now), maxRetries);
            var rows := SelectOldest(s.jobs);
            && s'.pcs == s.pcs
            && (rows == [] ==> s'.jobs == s.jobs)
            && (rows != [] ==>
                  rows[0] < |StartJob(s.jobs, rows[0], now)| &&
                  s'.jobs == ScanResult(StartJob(s.jobs, rows[0], now), rows[0], outcome, maxRetries, now))
  {
    var rows := SelectOldest(s.jobs);
    SelectOldestIsAnAnswer(s.jobs);
    if rows == [] {
      Prepend(s, Select(w, rows), [], maxRetries);
    } else {
      var s' := ScanningState(s, w, rows, now, maxRetries);
      HoldingIsARun(s', w, outcome, maxRetries, now);
      ClaimThen(s, w, rows, now, maxRetries, HoldingSteps(w, outcome, now));
    }
  }
}
