/**
 * When the queue acts: which rows a claim takes and leaves, which rows a sweep takes, and how long a job really
 * waits. The results are over runs and name the fields of the rows, not the queries.
 */
module JobTimes {
  import opened Prelude
  import opened JobQueue
  import opened JobRuns

  /** Each step of a run was enabled where it happened. */
  lemma {:induction false} StepOfRun(cfg: Settings, steps: seq<Step>, i: nat)
    requires IsRun(cfg, steps) && i < |steps|
    ensures IsRun(cfg, steps[..i]) && Enabled(cfg, Run(cfg, steps[..i]), steps[i])
    ensures steps[..i + 1][..i] == steps[..i] && Run(cfg, steps[..i + 1]) == Apply(cfg, Run(cfg, steps[..i]), steps[i])
    ensures IsRun(cfg, steps[..i + 1])
  {
    hide Enabled, Apply;
    var init := steps[..|steps| - 1];
    if i < |init| {
      StepOfRun(cfg, init, i);
      assert init[..i] == steps[..i] && init[..i + 1] == steps[..i + 1];
    } else {
      assert steps[..i + 1] == steps;
    }
  }

  // ---------------------------------------------------------------- what a claim takes, and what it leaves

  /** A claim takes only pending rows whose time has come, each once, at most a batch, the longest due first. */
  lemma ClaimTakesOnlyDueJobs(cfg: Settings, steps: seq<Step>, i: nat)
    requires IsRun(cfg, steps) && i < |steps| && steps[i].LockDue?
    ensures
      var rows, ids, now := Run(cfg, steps[..i]).rows, steps[i].ids, steps[i].now;
      |ids| <= cfg.batchSize
      && (forall id :: id in ids ==> id in rows && rows[id].status == Pending && rows[id].runAt <= now && id !in steps[i].skipped)
      && forall a, b :: 0 <= a < b < |ids| ==>
           ids[a] in rows && ids[b] in rows && ids[a] != ids[b] && rows[ids[a]].runAt <= rows[ids[b]].runAt
  {
    StepOfRun(cfg, steps, i);
    hide Run, IsRun;
  }

  /** A due job that nobody has locked is passed over only by a full batch of jobs that were due before it. */
  lemma DueJobIsClaimed(cfg: Settings, steps: seq<Step>, i: nat, id: JobId)
    requires IsRun(cfg, steps) && i < |steps| && steps[i].LockDue?
    requires
      var rows := Run(cfg, steps[..i]).rows;
      id in rows && rows[id].status == Pending && rows[id].runAt <= steps[i].now && id !in steps[i].skipped
    ensures
      var rows, ids := Run(cfg, steps[..i]).rows, steps[i].ids;
      id in ids
      || (|ids| == cfg.batchSize
          && forall other :: other in ids ==>
               other in rows && (rows[other].runAt < rows[id].runAt || (rows[other].runAt == rows[id].runAt && other < id)))
  {
    StepOfRun(cfg, steps, i);
    hide Run, IsRun;
    assert id !in steps[i].ids ==> Eligible(Run(cfg, steps[..i]).rows, steps[i].skipped, steps[i].now, id);
  }

  /** A sweep changes a running job exactly when it started before the timeout's cutoff, puts it back as it waited, and no other job ever. */
  lemma SweepTakesExactlyWhen(cfg: Settings, steps: seq<Step>, id: JobId, now: real)
    requires IsRun(cfg, steps) && id in Run(cfg, steps).rows
    ensures id in Apply(cfg, Run(cfg, steps), Sweep(now)).rows
    ensures
      var j, j' := Run(cfg, steps).rows[id], Apply(cfg, Run(cfg, steps), Sweep(now)).rows[id];
      (j.status == Running ==> j.startedAt.Some?)
      && (j' != j <==> j.status == Running && j.startedAt.value < now - cfg.timeout)
      && (j' != j ==>
            j' == Job(Pending, j.attempts, j.maxAttempts, j.runAt, None, j.finishedAt, Some("worker timed out; requeued"), j.workerId))
  {
    InvRun(cfg, steps);
    hide Run, IsRun;
  }

  // ---------------------------------------------------------------- a retry is held back

  /** The step records an outcome of this job. */
  predicate Records(s: State, step: Step, id: JobId) {
    step.Finish? && s.Batch(step.worker) != [] && s.Batch(step.worker)[0] == id
  }

  /** Nothing but recording an outcome moves a job's run time. */
  lemma RunAtStep(cfg: Settings, s: State, step: Step, id: JobId)
    requires Enabled(cfg, s, step) && id in s.history && id in Apply(cfg, s, step).rows
    requires !Records(s, step, id)
    ensures id in Apply(cfg, s, step).history && id in s.rows
    ensures Apply(cfg, s, step).rows[id].runAt == s.rows[id].runAt
  {
    hide Picks, FinishRow, AfterFinish, AfterClaim, IsStale;
  }

  lemma {:induction false} RunAtStays(cfg: Settings, steps: seq<Step>, i: nat, k: nat, id: JobId)
    requires IsRun(cfg, steps) && i <= k <= |steps|
    requires id in Run(cfg, steps[..i]).history && id in Run(cfg, steps[..k]).rows
    requires forall m :: i <= m < k ==> !Records(Run(cfg, steps[..m]), steps[m], id)
    ensures id in Run(cfg, steps[..i]).rows
    ensures Run(cfg, steps[..k]).rows[id].runAt == Run(cfg, steps[..i]).rows[id].runAt
  {
    hide Run, IsRun, Apply, Enabled, Records;
    if i < k {
      StepOfRun(cfg, steps, k - 1);
      HistoryStays(cfg, steps, i, k - 1, id);
      RunAtStep(cfg, Run(cfg, steps[..k - 1]), steps[k - 1], id);
      RunAtStays(cfg, steps, i, k - 1, id);
    }
  }

  lemma {:induction false} HistoryStays(cfg: Settings, steps: seq<Step>, i: nat, k: nat, id: JobId)
    requires IsRun(cfg, steps) && i <= k <= |steps|
    requires id in Run(cfg, steps[..i]).history
    ensures id in Run(cfg, steps[..k]).history
  {
    hide Run, IsRun, Enabled, RequeueRows, ClaimRows, FinishRows;
    if i < k {
      HistoryStays(cfg, steps, i, k - 1, id);
      StepOfRun(cfg, steps, k - 1);
    }
  }

  /** A held job was claimed. */
  ghost predicate HeldWasClaimed(s: State) {
    forall w, id :: Holds(s, w, id) && id in s.rows ==> s.rows[id].attempts >= 1
  }

  lemma HeldStep(cfg: Settings, s: State, step: Step)
    requires Inv(s) && Known(s) && HeldWasClaimed(s) && Enabled(cfg, s, step)
    ensures HeldWasClaimed(Apply(cfg, s, step))
  {
    hide Picks, LocksOk, HistoryOk, IsStale, Truncated, Delay, AfterFinish, AfterClaim;
    var s' := Apply(cfg, s, step);
    forall w, id | Holds(s', w, id) && id in s'.rows
      ensures s'.rows[id].attempts >= 1
    {
      assert Holds(s, w, id) || (step.CommitClaim? && id in s.LockedBy(step.worker));
      assert id in s.rows ==> RowOk(s.rows[id], s.history[id]);
    }
  }

  lemma {:induction false} HeldRun(cfg: Settings, steps: seq<Step>)
    requires IsRun(cfg, steps)
    ensures HeldWasClaimed(Run(cfg, steps))
  {
    hide Apply, Enabled;
    if steps != [] {
      var init := steps[..|steps| - 1];
      HeldRun(cfg, init);
      InvRun(cfg, init);
      KnownRun(cfg, init);
      HeldStep(cfg, Run(cfg, init), steps[|steps| - 1]);
    }
  }

  lemma HalfOfDouble(base: nat, n: nat)
    requires n >= 1
    ensures Delay(base, n) == (base * Pow2(n - 1)) as real
  {
    assert base * (2 * Pow2(n - 1)) == 2 * (base * Pow2(n - 1));
  }

  /**
   * After a failure recorded at `t` on the n-th attempt, with attempts left, no claim takes the job before
   * t + base * 2^(n - 1), whatever sweeps, claims and other workers do, until the next outcome is recorded.
   */
  lemma RetryIsHeldBack(cfg: Settings, steps: seq<Step>, i: nat, k: nat, id: JobId)
    requires IsRun(cfg, steps) && i < k < |steps|
    requires Records(Run(cfg, steps[..i]), steps[i], id) && (steps[i].outcome.Raised? || steps[i].outcome.TimedOut?)
    requires
      var rows := Run(cfg, steps[..i]).rows;
      id in rows && rows[id].attempts < rows[id].maxAttempts
    requires forall m :: i < m < k ==> !Records(Run(cfg, steps[..m]), steps[m], id)
    requires steps[k].LockDue? && id in steps[k].ids
    ensures
      var n := Run(cfg, steps[..i]).rows[id].attempts;
      n >= 1 && steps[k].now >= steps[i].now + (cfg.backoff * Pow2(n - 1)) as real
  {
    hide Run, IsRun, Apply, Records, Delay, Pow2, Enabled, Picks;
    FailureIsDelayed(cfg, steps, i, id);
    ClaimTakesOnlyDueJobs(cfg, steps, k);
    RunAtStays(cfg, steps, i + 1, k, id);
  }

  lemma FailureIsDelayed(cfg: Settings, steps: seq<Step>, i: nat, id: JobId)
    requires IsRun(cfg, steps) && i < |steps|
    requires Records(Run(cfg, steps[..i]), steps[i], id) && (steps[i].outcome.Raised? || steps[i].outcome.TimedOut?)
    requires
      var rows := Run(cfg, steps[..i]).rows;
      id in rows && rows[id].attempts < rows[id].maxAttempts
    ensures
      var n, after := Run(cfg, steps[..i]).rows[id].attempts, Run(cfg, steps[..i + 1]);
      n >= 1 && id in after.history && id in after.rows
      && after.rows[id].runAt == steps[i].now + (cfg.backoff * Pow2(n - 1)) as real
  {
    hide Run, IsRun, Apply, Inv, Delay, Pow2, Enabled;
    StepOfRun(cfg, steps, i);
    HeldRun(cfg, steps[..i]);
    InvRun(cfg, steps[..i]);
    assert Holds(Run(cfg, steps[..i]), steps[i].worker, id);
    HalfOfDouble(cfg.backoff, Run(cfg, steps[..i]).rows[id].attempts);
    FailureSetsRunAt(cfg, Run(cfg, steps[..i]), steps[i], id);
  }

  lemma FailureSetsRunAt(cfg: Settings, s: State, step: Step, id: JobId)
    requires Inv(s) && Records(s, step, id) && (step.outcome.Raised? || step.outcome.TimedOut?)
    requires id in s.rows && s.rows[id].attempts < s.rows[id].maxAttempts
    ensures
      var s' := Apply(cfg, s, step);
      id in s'.history && id in s'.rows && s'.rows[id].runAt == step.now + Delay(cfg.backoff, s.rows[id].attempts)
  {
    hide Delay, Truncated, AfterFinish;
  }

  /** While a job was never requeued or failed for good, its attempts number its recorded outcomes: the n-th failure is on the n-th attempt. */
  lemma OutcomesAreNumbered(cfg: Settings, steps: seq<Step>, id: JobId)
    requires IsRun(cfg, steps) && id in Run(cfg, steps).rows && id in Run(cfg, steps).history
    requires Run(cfg, steps).history[id].requeues == 0 && !Run(cfg, steps).history[id].permanent
    ensures
      var j, h := Run(cfg, steps).rows[id], Run(cfg, steps).history[id];
      h.Claims() == j.attempts && h.finishes == j.attempts - (if j.status == Running then 1 else 0)
  {
    SoleRun(cfg, steps, id);
  }

  // ---------------------------------------------------------------- and so it really waits

  /** The clock reading of a step that makes one. */
  function TimeOf(step: Step): Option<real> {
    match step
    case Sweep(now) => Some(now)
    case LockDue(_, _, now, _) => Some(now)
    case CommitClaim(_, stamp) => Some(stamp)
    case Finish(_, _, now) => Some(now)
    case _ => None
  }

  /** The clock never runs backwards. */
  predicate Timely(steps: seq<Step>) {
    forall i, j :: 0 <= i < j < |steps| && TimeOf(steps[i]).Some? && TimeOf(steps[j]).Some? ==>
      TimeOf(steps[i]).value <= TimeOf(steps[j]).value
  }

  predicate Reached(steps: seq<Step>, t: real) {
    exists i :: 0 <= i < |steps| && TimeOf(steps[i]).Some? && TimeOf(steps[i]).value >= t
  }

  lemma StillReached(steps: seq<Step>, t: real)
    requires steps != []
    ensures Reached(steps[..|steps| - 1], t) ==> Reached(steps, t)
    ensures TimeOf(steps[|steps| - 1]).Some? && TimeOf(steps[|steps| - 1]).value >= t ==> Reached(steps, t)
    ensures Timely(steps) && Reached(steps[..|steps| - 1], t) && TimeOf(steps[|steps| - 1]).Some? ==> TimeOf(steps[|steps| - 1]).value >= t
  {
    var init := steps[..|steps| - 1];
    if Reached(init, t) {
      var i :| 0 <= i < |init| && TimeOf(init[i]).Some? && TimeOf(init[i]).value >= t;
      assert steps[i] == init[i];
    }
  }

  /** Its run time accounts for every delay, and once locked or claimed that time has come. */
  ghost predicate Waited(steps: seq<Step>, s: State, id: JobId) {
    id in s.rows && id in s.history && s.history[id].requeues == 0 && !s.history[id].permanent ==>
      var j, h := s.rows[id], s.history[id];
      j.runAt >= h.due + h.delayed
      && (s.IsLocked(id) || j.status != Pending ==> Reached(steps, j.runAt))
      && (j.status == Succeeded || j.status == Failed ==> j.finishedAt.Some? && j.finishedAt.value >= j.runAt)
  }

  lemma WaitedFinish(cfg: Settings, steps: seq<Step>, s: State, id: JobId)
    requires steps != [] && Timely(steps) && steps[|steps| - 1].Finish?
    requires Enabled(cfg, s, steps[|steps| - 1]) && Records(s, steps[|steps| - 1], id)
    requires id in s.rows && id in s.history && s.rows[id].status == Running
    requires Waited(steps[..|steps| - 1], s, id)
    ensures Waited(steps, Apply(cfg, s, steps[|steps| - 1]), id)
  {
    hide Timely, Reached, Truncated, Delay;
    StillReached(steps, s.rows[id].runAt);
    DelayIsNatural(cfg.backoff, s.rows[id].attempts);
  }

  lemma DelayIsNatural(base: nat, attempts: nat)
    ensures Delay(base, attempts) >= 0.0
  {
    assert base * Pow2(attempts) >= 0;
  }

  lemma WaitedClaim(cfg: Settings, steps: seq<Step>, s: State, id: JobId)
    requires steps != [] && steps[|steps| - 1].CommitClaim?
    requires LocksOk(s) && id in s.rows && id in s.history
    requires Waited(steps[..|steps| - 1], s, id)
    ensures Waited(steps, Apply(cfg, s, steps[|steps| - 1]), id)
  {
    hide Reached, Apart;
    StillReached(steps, s.rows[id].runAt);
    var w := steps[|steps| - 1].worker;
    assert id in s.LockedBy(w) ==> s.IsLocked(id) && s.rows[id].status == Pending;
    var s' := Apply(cfg, s, steps[|steps| - 1]);
    assert s'.IsLocked(id) ==> s.IsLocked(id);
  }

  lemma WaitedLock(cfg: Settings, steps: seq<Step>, s: State, id: JobId)
    requires steps != [] && steps[|steps| - 1].LockDue? && Enabled(cfg, s, steps[|steps| - 1])
    requires Waited(steps[..|steps| - 1], s, id)
    ensures Waited(steps, Apply(cfg, s, steps[|steps| - 1]), id)
  {
    hide Reached;
    var step := steps[|steps| - 1];
    var s' := Apply(cfg, s, step);
    if id in s.rows {
      StillReached(steps, s.rows[id].runAt);
      assert id in step.ids ==> IsDue(s.rows[id], step.now);
      assert s'.IsLocked(id) ==> s.IsLocked(id) || id in step.ids;
    }
    hide Picks;
  }

  /** A step that touches neither the job's row and history nor adds a lock. */
  lemma WaitedUntouched(steps: seq<Step>, s: State, s': State, id: JobId)
    requires steps != [] && Waited(steps[..|steps| - 1], s, id)
    requires id in s'.rows ==> id in s.rows && s'.rows[id] == s.rows[id]
    requires id in s'.history ==> id in s.history && s'.history[id] == s.history[id]
    requires s'.IsLocked(id) ==> s.IsLocked(id)
    ensures Waited(steps, s', id)
  {
    hide Reached;
    if id in s'.rows {
      StillReached(steps, s.rows[id].runAt);
    }
  }

  lemma WaitedStep(cfg: Settings, steps: seq<Step>, s: State, id: JobId)
    requires steps != [] && Timely(steps) && Enabled(cfg, s, steps[|steps| - 1])
    requires Inv(s) && Sole(cfg.backoff, s, id) && Waited(steps[..|steps| - 1], s, id)
    ensures Waited(steps, Apply(cfg, s, steps[|steps| - 1]), id)
  {
    var step := steps[|steps| - 1];
    var s' := Apply(cfg, s, step);
    if id in s'.rows && id in s'.history && s'.history[id].requeues == 0 {
      hide Timely, Reached, Picks, FinishRow, Exact, Apart, Waited, RowOk, HistoryOk, AfterFinish, AfterClaim, Once, IsStale;
      match step {
        case Enqueue(i, _, _) =>
          if i == id {
            WaitedFresh(cfg, steps, s, id);
          } else {
            WaitedUntouched(steps, s, s', id);
          }
        case Sweep(_) =>
          NoRequeueYet(cfg, s, step, id);
          WaitedUntouched(steps, s, s', id);
        case LockDue(_, _, _, _) => WaitedLock(cfg, steps, s, id);
        case CommitClaim(_, _) => WaitedClaim(cfg, steps, s, id);
        case RollbackClaim(_) => WaitedUntouched(steps, s, s', id);
        case Finish(w, _, _) =>
          NoRequeueYet(cfg, s, step, id);
          if s.Batch(w)[0] == id {
            assert Holds(s, w, id);
            WaitedFinish(cfg, steps, s, id);
          } else {
            WaitedUntouched(steps, s, s', id);
          }
        case Abandon(_) => WaitedUntouched(steps, s, s', id);
        case Delete(_) => WaitedUntouched(steps, s, s', id);
      }
    }
  }

  lemma WaitedFresh(cfg: Settings, steps: seq<Step>, s: State, id: JobId)
    requires steps != [] && steps[|steps| - 1].Enqueue? && steps[|steps| - 1].id == id
    requires Enabled(cfg, s, steps[|steps| - 1]) && Inv(s)
    ensures Waited(steps, Apply(cfg, s, steps[|steps| - 1]), id)
  {
    hide Reached, Apart, RowOk, HistoryOk;
    assert !s.IsLocked(id);
  }

  lemma {:induction false} WaitedRun(cfg: Settings, steps: seq<Step>, id: JobId)
    requires IsRun(cfg, steps) && Timely(steps)
    ensures Waited(steps, Run(cfg, steps), id)
  {
    if steps != [] {
      hide Apply, Enabled, Inv, Sole, Waited, TimeOf;
      var init := steps[..|steps| - 1];
      WaitedRun(cfg, init, id);
      InvRun(cfg, init);
      SoleRun(cfg, init, id);
      WaitedStep(cfg, steps, Run(cfg, init), id);
    }
  }

  lemma DueStep(cfg: Settings, s: State, step: Step, id: JobId)
    requires id in s.history && Enabled(cfg, s, step)
    ensures id in Apply(cfg, s, step).history && Apply(cfg, s, step).history[id].due == s.history[id].due
  {
    hide Picks, FinishRow, IsStale;
  }

  /** The recorded first run time is the one the job was enqueued with. */
  lemma {:induction false} DueIsFirstRunAt(cfg: Settings, steps: seq<Step>, e: nat, k: nat)
    requires IsRun(cfg, steps) && e < k <= |steps| && steps[e].Enqueue?
    ensures steps[e].id in Run(cfg, steps[..k]).history && Run(cfg, steps[..k]).history[steps[e].id].due == steps[e].runAt
  {
    hide Run, IsRun, Enabled;
    StepOfRun(cfg, steps, k - 1);
    if e < k - 1 {
      hide Apply;
      DueIsFirstRunAt(cfg, steps, e, k - 1);
      DueStep(cfg, Run(cfg, steps[..k - 1]), steps[k - 1], steps[e].id);
    }
  }

  /**
   * The backoff is time that passes: when no clock runs backwards, a job that ended, well or badly, on its n-th
   * attempt, with no requeue and no permanent error, ended at least base * (2^(n - 1) - 1) seconds after its first run_at.
   */
  lemma BackoffIsWaited(cfg: Settings, steps: seq<Step>, e: nat, id: JobId)
    requires IsRun(cfg, steps) && Timely(steps) && e < |steps| && steps[e].Enqueue? && steps[e].id == id
    requires id in Run(cfg, steps).rows && id in Run(cfg, steps).history
    requires
      var j, h := Run(cfg, steps).rows[id], Run(cfg, steps).history[id];
      (j.status == Succeeded || j.status == Failed) && h.requeues == 0 && !h.permanent
    ensures
      var j := Run(cfg, steps).rows[id];
      j.attempts >= 1 && j.finishedAt.Some?
      && j.finishedAt.value >= steps[e].runAt + (cfg.backoff * (Pow2(j.attempts - 1) - 1)) as real
  {
    hide Run, IsRun, Pow2;
    WaitedRun(cfg, steps, id);
    SoleRun(cfg, steps, id);
    assert steps[..|steps|] == steps;
    DueIsFirstRunAt(cfg, steps, e, |steps|);
  }

  // ---------------------------------------------------------------- what claims and outcomes write

  /** A committed claim starts exactly the jobs it locked, one attempt further on and under its worker's name. */
  lemma ClaimStartsItsJobs(cfg: Settings, steps: seq<Step>, i: nat, id: JobId)
    requires IsRun(cfg, steps) && i < |steps| && steps[i].CommitClaim? && id in Run(cfg, steps[..i]).rows
    ensures
      var s, s' := Run(cfg, steps[..i]), Run(cfg, steps[..i + 1]);
      var j := s.rows[id];
      id in s'.rows
      && (if id in s.LockedBy(steps[i].worker)
          then s'.rows[id] == Job(Running, j.attempts + 1, j.maxAttempts, j.runAt, Some(steps[i].stamp), j.finishedAt, None, Some(steps[i].worker))
          else s'.rows[id] == j)
      && s'.Batch(steps[i].worker) == s.LockedBy(steps[i].worker) && s'.LockedBy(steps[i].worker) == []
  {
    StepOfRun(cfg, steps, i);
    hide Run, IsRun, Enabled;
  }

  /**
   * What recording an outcome makes of the job: success clears the error; a failure keeps its first 2000 characters and
   * is final exactly when no attempt is left or no handler was registered; a retry is neither started nor finished.
   */
  lemma OutcomeIsRecorded(cfg: Settings, steps: seq<Step>, i: nat, id: JobId)
    requires IsRun(cfg, steps) && i < |steps| && Records(Run(cfg, steps[..i]), steps[i], id) && id in Run(cfg, steps[..i]).rows
    ensures id in Run(cfg, steps[..i + 1]).rows
    ensures
      var j, j', o, now := Run(cfg, steps[..i]).rows[id], Run(cfg, steps[..i + 1]).rows[id], steps[i].outcome, steps[i].now;
      var final := o.Unregistered? || j.attempts >= j.maxAttempts;
      (j'.status == Succeeded <==> o.Completed?)
      && (j'.status == Failed <==> !o.Completed? && final)
      && (j'.status == Pending <==> !o.Completed? && !final)
      && j'.finishedAt == (if j'.status == Pending then j.finishedAt else Some(now))
      && (j'.status == Pending ==> j'.startedAt == None) && (j'.status != Pending ==> j'.startedAt == j.startedAt && j'.runAt == j.runAt)
      && j'.attempts == (if o.Unregistered? then j.maxAttempts else j.attempts)
      && j'.maxAttempts == j.maxAttempts && j'.workerId == j.workerId
  {
    StepOfRun(cfg, steps, i);
    hide Run, IsRun, Enabled, Delay, Truncated, FinishHistory;
  }

  lemma ErrorIsKept(cfg: Settings, steps: seq<Step>, i: nat, id: JobId)
    requires IsRun(cfg, steps) && i < |steps| && Records(Run(cfg, steps[..i]), steps[i], id) && id in Run(cfg, steps[..i]).rows
    ensures id in Run(cfg, steps[..i + 1]).rows
    ensures
      var j', o := Run(cfg, steps[..i + 1]).rows[id], steps[i].outcome;
      match o
      case Completed => j'.lastError == None
      case TimedOut => j'.lastError == Some("job_timeout")
      case Unregistered => j'.lastError == Some("unknown_task")
      case Raised(error) =>
        j'.lastError.Some? && j'.lastError.value <= error
        && |j'.lastError.value| == if |error| <= 2000 then |error| else 2000
  {
    StepOfRun(cfg, steps, i);
    hide Run, IsRun, Enabled, Delay, FinishHistory;
  }
}
