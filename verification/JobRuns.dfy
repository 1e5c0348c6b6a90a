/**
 * The queue over whole runs: any number of workers, interleaved transaction by transaction, with late
 * finishes, crashed workers, stale sweeps and deletions.
 *
 * A claim is two steps, because its row locks are held from the candidate query until the commit. Each
 * job carries a history that no transaction reads: the counts and delays the results are about.
 */
module JobRuns {
  import opened Prelude
  import opened JobQueue

  type WorkerId = string

  /**
   * `low` and `high` count the claims made while attempts were below, and at or above, the limit.
   * `delayed` adds up the backoff of every retry; `permanent` records an outcome that used up all attempts; `due` is
   * the time the job was first to run at.
   */
  datatype History = History(limit: nat, low: nat, high: nat, finishes: nat, requeues: nat, delayed: real, permanent: bool, due: real) {
    function Claims(): nat { low + high }
  }

  datatype State = State(
    rows: Rows,
    locks: map<WorkerId, seq<JobId>>,
    batches: map<WorkerId, seq<JobId>>,
    history: map<JobId, History>)
  {
    function LockedBy(w: WorkerId): seq<JobId> { if w in locks then locks[w] else [] }
    function Batch(w: WorkerId): seq<JobId> { if w in batches then batches[w] else [] }
    ghost predicate IsLocked(id: JobId) { exists w :: w in locks && id in locks[w] }
  }

  const EMPTY := State(map[], map[], map[], map[])

  datatype Step =
    | Enqueue(id: JobId, maxAttempts: nat, runAt: real)
    | Sweep(now: real)
    | LockDue(worker: WorkerId, ids: seq<JobId>, now: real, skipped: set<JobId>)
    | CommitClaim(worker: WorkerId, stamp: real)
    | RollbackClaim(worker: WorkerId)
    | Finish(worker: WorkerId, outcome: Outcome, now: real)
    | Abandon(worker: WorkerId)
    | Delete(id: JobId)

  /** When a step can happen; `skipped` are rows some other short transaction has locked just then. */
  ghost predicate Enabled(cfg: Settings, s: State, step: Step) {
    match step
    case Enqueue(id, maxAttempts, _) => id !in s.history && maxAttempts >= 1
    case Sweep(_) => true
    case LockDue(w, ids, now, skipped) =>
      s.LockedBy(w) == [] && s.Batch(w) == []
      && (forall id :: s.IsLocked(id) && id in s.rows ==> id in skipped)
      && Picks(s.rows, skipped, now, cfg.batchSize, ids)
    case CommitClaim(w, _) => s.Batch(w) == []
    case RollbackClaim(_) => true
    case Finish(w, _, _) => s.Batch(w) != [] && !s.IsLocked(s.Batch(w)[0])
    case Abandon(_) => true
    case Delete(id) => !s.IsLocked(id)
  }

  // ---------------------------------------------------------------- histories

  function AfterClaim(h: History, j: Job): History {
    if j.attempts < j.maxAttempts then h.(low := h.low + 1) else h.(high := h.high + 1)
  }

  function AfterFinish(h: History, after: Job, o: Outcome, now: real): History {
    h.(finishes := h.finishes + 1,
       permanent := h.permanent || o.Unregistered?,
       delayed := if !o.Completed? && after.status == Pending then h.delayed + (after.runAt - now) else h.delayed)
  }

  function ClaimHistory(s: State, ids: seq<JobId>): map<JobId, History> {
    map id | id in s.history ::
      if id in ids && id in s.rows then AfterClaim(s.history[id], s.rows[id]) else s.history[id]
  }

  function SweepHistory(s: State, cutoff: real): map<JobId, History> {
    map id | id in s.history ::
      if id in s.rows && IsStale(s.rows[id], cutoff) then s.history[id].(requeues := s.history[id].requeues + 1)
      else s.history[id]
  }

  function FinishHistory(s: State, id: JobId, o: Outcome, base: nat, now: real): map<JobId, History> {
    if id in s.rows && id in s.history then
      s.history[id := AfterFinish(s.history[id], FinishRow(s.rows[id], o, base, now), o, now)]
    else s.history
  }

  function Apply(cfg: Settings, s: State, step: Step): State {
    match step
    case Enqueue(id, maxAttempts, runAt) =>
      s.(rows := s.rows[id := Fresh(maxAttempts, runAt)], history := s.history[id := History(maxAttempts, 0, 0, 0, 0, 0.0, false, runAt)])
    case Sweep(now) =>
      s.(rows := RequeueRows(s.rows, now - cfg.timeout), history := SweepHistory(s, now - cfg.timeout))
    case LockDue(w, ids, _, _) => s.(locks := s.locks[w := ids])
    case CommitClaim(w, stamp) =>
      var ids := s.LockedBy(w);
      State(ClaimRows(s.rows, ids, stamp, w), s.locks - {w}, s.batches[w := ids], ClaimHistory(s, ids))
    case RollbackClaim(w) => s.(locks := s.locks - {w})
    case Finish(w, o, now) =>
      if s.Batch(w) == [] then s
      else
        var id := s.Batch(w)[0];
        s.(rows := FinishRows(s.rows, id, o, cfg.backoff, now),
           batches := s.batches[w := s.Batch(w)[1..]],
           history := FinishHistory(s, id, o, cfg.backoff, now))
    case Abandon(w) => s.(batches := s.batches - {w})
    case Delete(id) => s.(rows := s.rows - {id})
  }

  function Run(cfg: Settings, steps: seq<Step>): State {
    if steps == [] then EMPTY else Apply(cfg, Run(cfg, steps[..|steps| - 1]), steps[|steps| - 1])
  }

  ghost predicate IsRun(cfg: Settings, steps: seq<Step>) {
    steps == []
    || (IsRun(cfg, steps[..|steps| - 1]) && Enabled(cfg, Run(cfg, steps[..|steps| - 1]), steps[|steps| - 1]))
  }

  // ---------------------------------------------------------------- what every run keeps

  ghost predicate LocksOk(s: State) {
    Apart(s.locks)
    && forall w, id :: w in s.locks && id in s.locks[w] ==> id in s.rows && s.rows[id].status == Pending
  }

  /** No job appears twice, in one worker's list or in two workers' lists. */
  ghost predicate Apart(lists: map<WorkerId, seq<JobId>>) {
    (forall w, v, id :: w in lists && v in lists && id in lists[w] && id in lists[v] ==> w == v)
    && forall w :: w in lists ==> Distinct(lists[w])
  }

  ghost predicate Distinct(ids: seq<JobId>) {
    forall i, j :: 0 <= i < j < |ids| ==> ids[i] != ids[j]
  }

  lemma ApartWithout(lists: map<WorkerId, seq<JobId>>, w: WorkerId)
    requires Apart(lists)
    ensures Apart(lists - {w})
  {
  }

  lemma ApartWith(lists: map<WorkerId, seq<JobId>>, w: WorkerId, ids: seq<JobId>)
    requires Apart(lists) && Distinct(ids)
    requires forall v, id :: v in lists && id in lists[v] && id in ids ==> v == w
    ensures Apart(lists[w := ids])
  {
  }

  /** Claims below the limit are paid for by attempts, the others by requeues. */
  ghost predicate RowOk(j: Job, h: History) {
    j.maxAttempts == h.limit >= 1
    && (j.status == Running ==> j.startedAt.Some?)
    && h.low <= j.attempts && h.low <= h.limit
    && h.high + (if j.status == Pending && j.attempts >= j.maxAttempts then 1 else 0) <= h.requeues
    && j.attempts <= h.limit + h.high
  }

  ghost predicate HistoryOk(h: History) {
    h.low <= h.limit && h.high <= h.requeues
  }

  ghost predicate Inv(s: State) {
    LocksOk(s)
    && (forall id :: id in s.rows ==> id in s.history && RowOk(s.rows[id], s.history[id]))
    && forall id :: id in s.history ==> HistoryOk(s.history[id])
  }

  lemma ClaimKeepsRow(j: Job, h: History, stamp: real, w: string)
    requires RowOk(j, h) && j.status == Pending
    ensures RowOk(Claimed(j, stamp, w), AfterClaim(h, j))
  {
  }

  lemma FinishKeepsRow(j: Job, h: History, o: Outcome, base: nat, now: real)
    requires RowOk(j, h)
    ensures var j' := FinishRow(j, o, base, now); RowOk(j', AfterFinish(h, j', o, now))
  {
    hide Delay, Truncated;
  }

  lemma LocksStep(cfg: Settings, s: State, step: Step)
    requires Inv(s) && Enabled(cfg, s, step)
    ensures LocksOk(Apply(cfg, s, step))
  {
    hide RowOk, HistoryOk, FinishRow, Claimed, AfterClaim, AfterFinish, Picks, Apart;
    var s' := Apply(cfg, s, step);
    match step {
      case Enqueue(id, maxAttempts, runAt) =>
      case Sweep(now) =>
      case LockDue(w, ids, now, skipped) =>
        PicksEligible(s.rows, skipped, now, cfg.batchSize, ids);
        forall v, id | v in s.locks && id in s.locks[v]
          ensures id !in ids
        {
          assert s.IsLocked(id);
        }
        ApartWith(s.locks, w, ids);
      case CommitClaim(w, stamp) =>
        CommitLocks(s, w, stamp);
      case RollbackClaim(w) =>
        ApartWithout(s.locks, w);
      case Finish(w, o, now) =>
      case Abandon(w) =>
      case Delete(id) =>
    }
  }

  lemma CommitLocks(s: State, w: WorkerId, stamp: real)
    requires LocksOk(s)
    ensures LocksOk(State(ClaimRows(s.rows, s.LockedBy(w), stamp, w), s.locks - {w}, s.batches[w := s.LockedBy(w)], ClaimHistory(s, s.LockedBy(w))))
  {
    ApartWithout(s.locks, w);
  }

  lemma RowsStep(cfg: Settings, s: State, step: Step, id: JobId)
    requires Inv(s) && Enabled(cfg, s, step) && id in Apply(cfg, s, step).rows
    ensures var s' := Apply(cfg, s, step); id in s'.history && RowOk(s'.rows[id], s'.history[id])
  {
    hide RowOk, HistoryOk, FinishRow, Claimed, AfterClaim, AfterFinish, Picks, Apart, Requeued;
    match step {
      case Enqueue(_, maxAttempts, runAt) => FreshIsOk(maxAttempts, runAt);
      case Sweep(now) => SweepKeepsRow(s.rows[id], s.history[id], now - cfg.timeout);
      case LockDue(_, _, _, _) =>
      case CommitClaim(w, stamp) =>
        if id in s.LockedBy(w) {
          ClaimKeepsRow(s.rows[id], s.history[id], stamp, w);
        }
      case RollbackClaim(_) =>
      case Finish(_, o, now) => FinishKeepsRow(s.rows[id], s.history[id], o, cfg.backoff, now);
      case Abandon(_) =>
      case Delete(_) =>
    }
  }

  lemma InvStep(cfg: Settings, s: State, step: Step)
    requires Inv(s) && Enabled(cfg, s, step)
    ensures Inv(Apply(cfg, s, step))
  {
    hide RowOk, FinishRow, Claimed, AfterClaim, AfterFinish, Picks, LocksOk, HistoryOk;
    var s' := Apply(cfg, s, step);
    LocksStep(cfg, s, step);
    forall id | id in s'.rows
      ensures id in s'.history && RowOk(s'.rows[id], s'.history[id])
    {
      RowsStep(cfg, s, step, id);
    }
    forall id | id in s'.history
      ensures HistoryOk(s'.history[id])
    {
      if id in s'.rows {
        RowGivesHistory(s'.rows[id], s'.history[id]);
      }
    }
  }

  lemma FreshIsOk(maxAttempts: nat, runAt: real)
    requires maxAttempts >= 1
    ensures RowOk(Fresh(maxAttempts, runAt), History(maxAttempts, 0, 0, 0, 0, 0.0, false, runAt))
  {
  }

  lemma SweepKeepsRow(j: Job, h: History, cutoff: real)
    requires RowOk(j, h)
    ensures IsStale(j, cutoff) ==> RowOk(Requeued(j), h.(requeues := h.requeues + 1))
  {
  }

  lemma RowGivesHistory(j: Job, h: History)
    requires RowOk(j, h)
    ensures HistoryOk(h)
  {
  }

  lemma PicksEligible(rows: Rows, locked: set<JobId>, now: real, batch: nat, ids: seq<JobId>)
    requires Picks(rows, locked, now, batch, ids)
    ensures forall id :: id in ids ==> id in rows && id !in locked && rows[id].status == Pending
    ensures Distinct(ids)
  {
  }

  lemma {:induction false} InvRun(cfg: Settings, steps: seq<Step>)
    requires IsRun(cfg, steps)
    ensures Inv(Run(cfg, steps))
  {
    if steps != [] {
      InvRun(cfg, steps[..|steps| - 1]);
      InvStep(cfg, Run(cfg, steps[..|steps| - 1]), steps[|steps| - 1]);
    }
  }

  /**
   * However workers interleave, finish late, crash and sweep, a job is claimed at most `max_attempts`
   * times plus once for every time the stale sweep returned it. Its attempts obey the same bound.
   */
  lemma {:induction false} ClaimBound(cfg: Settings, steps: seq<Step>, id: JobId)
    requires IsRun(cfg, steps) && id in Run(cfg, steps).history
    ensures
      var s := Run(cfg, steps);
      s.history[id].Claims() <= s.history[id].limit + s.history[id].requeues
      && (id in s.rows ==> s.rows[id].attempts <= s.rows[id].maxAttempts + s.history[id].requeues)
  {
    InvRun(cfg, steps);
  }

  /** Two claims in progress at the same time never cover the same row. */
  lemma {:induction false} ClaimsAreDisjoint(cfg: Settings, steps: seq<Step>, w: WorkerId, v: WorkerId, id: JobId)
    requires IsRun(cfg, steps) && w != v
    ensures !(id in Run(cfg, steps).LockedBy(w) && id in Run(cfg, steps).LockedBy(v))
  {
    InvRun(cfg, steps);
  }

  /** Work is never lost: a running job whose time is up becomes pending at the next sweep. */
  lemma {:induction false} NoWorkIsLost(cfg: Settings, steps: seq<Step>, id: JobId, now: real)
    requires IsRun(cfg, steps) && id in Run(cfg, steps).rows && Run(cfg, steps).rows[id].status == Running
    ensures
      var j := Run(cfg, steps).rows[id];
      j.startedAt.Some?
      && (now - cfg.timeout > j.startedAt.value ==>
            var j' := Apply(cfg, Run(cfg, steps), Sweep(now)).rows[id];
            j'.status == Pending && j'.attempts == j.attempts && j'.runAt == j.runAt)
  {
    InvRun(cfg, steps);
  }

  // ---------------------------------------------------------------- who owns a job

  ghost predicate Holds(s: State, w: WorkerId, id: JobId) {
    w in s.batches && id in s.batches[w]
  }

  ghost predicate Once(ids: seq<JobId>, id: JobId) {
    forall i, j :: 0 <= i < j < |ids| && ids[i] == id ==> ids[j] != id
  }

  /** One worker at most holds the job, once, and while it does the job is running. */
  ghost predicate Owned(s: State, id: JobId) {
    (forall w, v :: Holds(s, w, id) && Holds(s, v, id) ==> w == v)
    && forall w :: Holds(s, w, id) ==> Once(s.batches[w], id) && (id in s.rows ==> s.rows[id].status == Running)
  }

  /** Held jobs have a history: no job is enqueued twice under one id. */
  ghost predicate Known(s: State) {
    forall w, id :: Holds(s, w, id) ==> id in s.history
  }

  /** The sweep returns a job that some live worker will still record an outcome for. */
  ghost predicate TakesFromOwner(cfg: Settings, s: State, step: Step, id: JobId) {
    step.Sweep? && id in s.rows && IsStale(s.rows[id], step.now - cfg.timeout) && exists w :: Holds(s, w, id)
  }

  lemma KnownStep(cfg: Settings, s: State, step: Step)
    requires Inv(s) && Known(s) && Enabled(cfg, s, step)
    ensures Known(Apply(cfg, s, step))
  {
    hide RowOk, HistoryOk, FinishRow, Claimed, AfterClaim, AfterFinish, Picks, Apart;
    var s' := Apply(cfg, s, step);
    forall w, id | Holds(s', w, id)
      ensures id in s'.history
    {
      assert Holds(s, w, id) || id in s.rows;
    }
  }

  /** A step that leaves a job's status alone and adds no holder keeps it owned. */
  lemma OwnedUntouched(s: State, s': State, id: JobId)
    requires Owned(s, id)
    requires id in s'.rows ==> id in s.rows && s'.rows[id].status == s.rows[id].status
    requires forall w :: w in s'.batches ==> w in s.batches && s'.batches[w] == s.batches[w]
    ensures Owned(s', id)
  {
    hide Once;
    assert forall w :: Holds(s', w, id) ==> Holds(s, w, id);
  }

  lemma OwnedEnqueue(cfg: Settings, s: State, maxAttempts: nat, runAt: real, id: JobId)
    requires Known(s) && id !in s.history
    ensures Owned(Apply(cfg, s, Enqueue(id, maxAttempts, runAt)), id)
  {
    hide Once;
    var s' := Apply(cfg, s, Enqueue(id, maxAttempts, runAt));
    assert forall w :: Holds(s', w, id) ==> Holds(s, w, id);
  }

  /** From an owned job, a sweep keeps it owned exactly when it does not take it from a holder. */
  lemma SweepKeepsOwnerExactlyWhen(cfg: Settings, s: State, now: real, id: JobId)
    requires Owned(s, id)
    ensures Owned(Apply(cfg, s, Sweep(now)), id) <==> !TakesFromOwner(cfg, s, Sweep(now), id)
  {
    hide Once;
    var s' := Apply(cfg, s, Sweep(now));
    assert forall w :: Holds(s', w, id) <==> Holds(s, w, id);
    if TakesFromOwner(cfg, s, Sweep(now), id) {
      var w :| Holds(s, w, id);
      assert Holds(s', w, id) && s'.rows[id].status == Pending;
    }
  }

  lemma OwnedClaim(cfg: Settings, s: State, w: WorkerId, stamp: real, id: JobId)
    requires Inv(s) && s.Batch(w) == [] && Owned(s, id)
    ensures Owned(Apply(cfg, s, CommitClaim(w, stamp)), id)
  {
    hide HistoryOk, RowOk, AfterClaim;
    var ids := s.LockedBy(w);
    var s' := Apply(cfg, s, CommitClaim(w, stamp));
    assert Distinct(ids) && Once(ids, id);
    assert id in ids ==> id in s.rows && s.rows[id].status == Pending;
    assert forall v :: Holds(s', v, id) && v != w ==> Holds(s, v, id) && s'.batches[v] == s.batches[v];
    assert Holds(s', w, id) ==> id in ids;
    hide Apart, Once;
  }

  lemma OwnedFinish(cfg: Settings, s: State, w: WorkerId, o: Outcome, now: real, id: JobId)
    requires s.Batch(w) != [] && Owned(s, id)
    ensures Owned(Apply(cfg, s, Finish(w, o, now)), id)
  {
    hide FinishRow, AfterFinish;
    var s' := Apply(cfg, s, Finish(w, o, now));
    var ids := s.Batch(w);
    if id == ids[0] {
      assert Holds(s, w, id) && Once(ids, id);
      assert id !in ids[1..];
      assert forall v :: Holds(s', v, id) ==> v != w && Holds(s, v, id);
    } else {
      assert forall v :: Holds(s', v, id) ==> Holds(s, v, id);
      assert Holds(s', w, id) ==> id in ids && (Once(ids, id) ==> Once(ids[1..], id));
    }
  }

  /** No step but a sweep that takes a job from its holder ever gives it a second owner, or an owner it does not run for. */
  lemma OwnershipKeptExactlyWhen(cfg: Settings, s: State, step: Step, id: JobId)
    requires Inv(s) && Known(s) && Enabled(cfg, s, step) && Owned(s, id)
    ensures Owned(Apply(cfg, s, step), id) <==> !TakesFromOwner(cfg, s, step, id)
  {
    hide Owned, RowOk, HistoryOk, FinishRow, Claimed, AfterClaim, AfterFinish, Picks, Apart, Requeued, Once;
    match step {
      case Enqueue(i, maxAttempts, runAt) =>
        if i == id {
          OwnedEnqueue(cfg, s, maxAttempts, runAt, id);
        } else {
          OwnedUntouched(s, Apply(cfg, s, step), id);
        }
      case Sweep(now) => SweepKeepsOwnerExactlyWhen(cfg, s, now, id);
      case LockDue(_, _, _, _) => OwnedUntouched(s, Apply(cfg, s, step), id);
      case CommitClaim(w, stamp) => OwnedClaim(cfg, s, w, stamp, id);
      case RollbackClaim(_) => OwnedUntouched(s, Apply(cfg, s, step), id);
      case Finish(w, o, now) => OwnedFinish(cfg, s, w, o, now, id);
      case Abandon(_) => OwnedUntouched(s, Apply(cfg, s, step), id);
      case Delete(_) => OwnedUntouched(s, Apply(cfg, s, step), id);
    }
  }

  /** A sweep is safe for the whole table exactly when it takes no job from its holder. */
  lemma SweepIsSafeExactlyWhen(cfg: Settings, s: State, now: real)
    requires forall id :: Owned(s, id)
    ensures (forall id :: Owned(Apply(cfg, s, Sweep(now)), id)) <==> forall id :: !TakesFromOwner(cfg, s, Sweep(now), id)
  {
    forall id
      ensures Owned(Apply(cfg, s, Sweep(now)), id) <==> !TakesFromOwner(cfg, s, Sweep(now), id)
    {
      assert Owned(s, id);
      SweepKeepsOwnerExactlyWhen(cfg, s, now, id);
    }
    hide Owned, TakesFromOwner, Apply;
  }

  /** No sweep of the run returns this job while its owner will still record an outcome for it. */
  ghost predicate IsSparingRun(cfg: Settings, steps: seq<Step>, id: JobId) {
    steps == []
    || (IsSparingRun(cfg, steps[..|steps| - 1], id)
        && Enabled(cfg, Run(cfg, steps[..|steps| - 1]), steps[|steps| - 1])
        && !TakesFromOwner(cfg, Run(cfg, steps[..|steps| - 1]), steps[|steps| - 1], id))
  }

  lemma {:induction false} KnownRun(cfg: Settings, steps: seq<Step>)
    requires IsRun(cfg, steps)
    ensures Known(Run(cfg, steps))
  {
    hide Apply, Enabled;
    if steps != [] {
      KnownRun(cfg, steps[..|steps| - 1]);
      InvRun(cfg, steps[..|steps| - 1]);
      KnownStep(cfg, Run(cfg, steps[..|steps| - 1]), steps[|steps| - 1]);
    }
  }

  lemma {:induction false} OwnedRun(cfg: Settings, steps: seq<Step>, id: JobId)
    requires IsSparingRun(cfg, steps, id)
    ensures IsRun(cfg, steps) && Owned(Run(cfg, steps), id)
  {
    if steps != [] {
      hide Apply, Enabled, Owned, TakesFromOwner;
      var init := steps[..|steps| - 1];
      OwnedRun(cfg, init, id);
      InvRun(cfg, init);
      KnownRun(cfg, init);
      OwnershipKeptExactlyWhen(cfg, Run(cfg, init), steps[|steps| - 1], id);
    }
  }

  /** A job never swept from a live owner has one owner only, and is running until that owner records its outcome. */
  lemma OneOwner(cfg: Settings, steps: seq<Step>, w: WorkerId, v: WorkerId, id: JobId)
    requires IsSparingRun(cfg, steps, id)
    requires id in Run(cfg, steps).Batch(w) && id in Run(cfg, steps).Batch(v)
    ensures w == v && (id in Run(cfg, steps).rows ==> Run(cfg, steps).rows[id].status == Running)
  {
    OwnedRun(cfg, steps, id);
    assert Holds(Run(cfg, steps), w, id) && Holds(Run(cfg, steps), v, id);
  }

  lemma TerminalStep(cfg: Settings, s: State, step: Step, id: JobId)
    requires Inv(s) && Owned(s, id) && Enabled(cfg, s, step)
    requires id in s.rows && (s.rows[id].status == Succeeded || s.rows[id].status == Failed)
    ensures id in Apply(cfg, s, step).rows ==> Apply(cfg, s, step).rows[id] == s.rows[id]
  {
    hide RowOk, HistoryOk, FinishRow, AfterFinish, AfterClaim, Claimed, Picks, Apart, ClaimHistory, SweepHistory, FinishHistory, Once;
    if step.Finish? {
      assert Holds(s, step.worker, s.Batch(step.worker)[0]);
    }
  }

  /** Such a job's SUCCEEDED or FAILED is never left: no step changes its row, except by deleting it. */
  lemma TerminalRowsAreFinal(cfg: Settings, steps: seq<Step>, id: JobId)
    requires steps != [] && IsSparingRun(cfg, steps, id)
    requires
      var s := Run(cfg, steps[..|steps| - 1]);
      id in s.rows && (s.rows[id].status == Succeeded || s.rows[id].status == Failed)
    ensures
      var s, s' := Run(cfg, steps[..|steps| - 1]), Run(cfg, steps);
      id in s'.rows ==> s'.rows[id] == s.rows[id]
  {
    hide Apply, Inv, Owned, Enabled, TakesFromOwner;
    OwnedRun(cfg, steps[..|steps| - 1], id);
    InvRun(cfg, steps[..|steps| - 1]);
    TerminalStep(cfg, Run(cfg, steps[..|steps| - 1]), steps[|steps| - 1], id);
  }

  /** A terminal job goes back to the queue exactly when an owner it no longer has records a failure below the limit. */
  lemma TerminalLeftExactlyWhen(cfg: Settings, s: State, step: Step, id: JobId)
    requires Inv(s) && Enabled(cfg, s, step)
    requires id in s.rows && (s.rows[id].status == Succeeded || s.rows[id].status == Failed)
    requires id in Apply(cfg, s, step).rows
    ensures
      var after := Apply(cfg, s, step).rows[id].status;
      after != Succeeded && after != Failed
      <==> step.Finish? && s.Batch(step.worker)[0] == id && (step.outcome.Raised? || step.outcome.TimedOut?)
           && s.rows[id].attempts < s.rows[id].maxAttempts
  {
    hide RowOk, HistoryOk, AfterFinish, AfterClaim, Picks, Apart, ClaimHistory, SweepHistory, FinishHistory, Truncated, Delay;
  }

  // ---------------------------------------------------------------- jobs that were never requeued

  /** base * (2^n - 1): the first `n` backoff delays together. */
  function TotalDelay(base: nat, n: nat): real {
    (base * (Pow2(n) - 1)) as real
  }

  lemma DelaysAddUp(base: nat, attempts: nat)
    requires attempts >= 1
    ensures TotalDelay(base, attempts - 1) + Delay(base, attempts) == TotalDelay(base, attempts)
    ensures TotalDelay(base, 0) == 0.0
  {
    var p := Pow2(attempts - 1);
    assert base * (2 * p) == 2 * (base * p);
    assert base * (p - 1) == base * p - base;
    assert base * (2 * p - 1) == 2 * (base * p) - base;
  }

  /** How many more claims and outcomes the job can still see. */
  function Budget(j: Job): int {
    2 * (j.maxAttempts - j.attempts) + if j.status == Running then 1 else 0
  }

  ghost predicate Exact(base: nat, j: Job, h: History) {
    h.requeues == 0 ==>
      j.attempts <= j.maxAttempts
      && (j.status == Running ==> j.attempts >= 1)
      && h.Claims() + h.finishes + Budget(j) <= 2 * h.limit
      && (!h.permanent ==>
            h.Claims() == j.attempts
            && h.finishes == j.attempts - (if j.status == Running then 1 else 0)
            && (j.status == Failed ==> j.attempts == j.maxAttempts)
            && (j.status != Pending ==> j.attempts >= 1)
            && h.delayed == TotalDelay(base, if j.status == Pending then j.attempts else j.attempts - 1))
  }

  lemma ExactClaim(base: nat, j: Job, h: History, stamp: real, w: string)
    requires RowOk(j, h) && Exact(base, j, h) && j.status == Pending
    ensures Exact(base, Claimed(j, stamp, w), AfterClaim(h, j))
  {
    hide TotalDelay;
  }

  lemma ExactFinish(base: nat, j: Job, h: History, o: Outcome, now: real)
    requires RowOk(j, h) && Exact(base, j, h) && j.status == Running
    ensures var j' := FinishRow(j, o, base, now); Exact(base, j', AfterFinish(h, j', o, now))
  {
    hide TotalDelay, Delay, Truncated;
    if h.requeues == 0 {
      DelaysAddUp(base, j.attempts);
    }
  }

  /** Until its first requeue a job is owned, and its history is exact. */
  ghost predicate Sole(base: nat, s: State, id: JobId) {
    id in s.history && s.history[id].requeues == 0 ==>
      Owned(s, id) && (id in s.rows ==> Exact(base, s.rows[id], s.history[id]))
  }

  /** Requeues are only ever counted up, and a step that counts none takes the job from nobody. */
  lemma NoRequeueYet(cfg: Settings, s: State, step: Step, id: JobId)
    requires id in s.history && Enabled(cfg, s, step)
    requires id in Apply(cfg, s, step).history && Apply(cfg, s, step).history[id].requeues == 0
    ensures s.history[id].requeues == 0
    ensures step.Sweep? && id in s.rows ==> !IsStale(s.rows[id], step.now - cfg.timeout)
  {
    hide IsStale, AfterFinish, AfterClaim, Picks;
    match step {
      case CommitClaim(w, stamp) =>
        if id in s.rows {
          ClaimKeepsRequeues(s.history[id], s.rows[id]);
        }
      case Finish(w, o, now) =>
        if id in s.rows {
          FinishKeepsRequeues(s.history[id], FinishRow(s.rows[id], o, cfg.backoff, now), o, now);
        }
      case _ =>
    }
  }

  lemma ClaimKeepsRequeues(h: History, j: Job)
    ensures AfterClaim(h, j).requeues == h.requeues
  {
  }

  lemma FinishKeepsRequeues(h: History, j: Job, o: Outcome, now: real)
    ensures AfterFinish(h, j, o, now).requeues == h.requeues
  {
  }

  lemma ExactStep(cfg: Settings, s: State, step: Step, id: JobId)
    requires Inv(s) && Enabled(cfg, s, step) && id in s.rows && id in Apply(cfg, s, step).rows
    requires Owned(s, id) && Exact(cfg.backoff, s.rows[id], s.history[id])
    requires step.Sweep? ==> !IsStale(s.rows[id], step.now - cfg.timeout)
    ensures var s' := Apply(cfg, s, step); id in s'.history && Exact(cfg.backoff, s'.rows[id], s'.history[id])
  {
    hide Exact, RowOk, HistoryOk, FinishRow, Claimed, AfterClaim, AfterFinish, Picks, Apart, Requeued, IsStale, Once;
    match step {
      case CommitClaim(w, stamp) =>
        if id in s.LockedBy(w) {
          ExactClaim(cfg.backoff, s.rows[id], s.history[id], stamp, w);
        }
      case Finish(w, o, now) =>
        if id == s.Batch(w)[0] {
          assert Holds(s, w, id);
          ExactFinish(cfg.backoff, s.rows[id], s.history[id], o, now);
        }
      case _ =>
    }
  }

  lemma SoleStep(cfg: Settings, s: State, step: Step, id: JobId)
    requires Inv(s) && Known(s) && Enabled(cfg, s, step) && Sole(cfg.backoff, s, id)
    ensures Sole(cfg.backoff, Apply(cfg, s, step), id)
  {
    var s' := Apply(cfg, s, step);
    if id in s'.history && s'.history[id].requeues == 0 {
      hide Exact, Inv, Owned, IsStale;
      if id in s.history {
        NoRequeueYet(cfg, s, step, id);
        OwnershipKeptExactlyWhen(cfg, s, step, id);
        if id in s'.rows {
          RowsDoNotReturn(cfg, s, step, id);
          ExactStep(cfg, s, step, id);
        }
      } else {
        OnlyEnqueueIsNew(cfg, s, step, id);
        OwnedEnqueue(cfg, s, step.maxAttempts, step.runAt, id);
        ExactFresh(cfg.backoff, step.maxAttempts, step.runAt);
      }
    }
  }

  lemma RowsDoNotReturn(cfg: Settings, s: State, step: Step, id: JobId)
    requires Enabled(cfg, s, step) && id in s.history && id in Apply(cfg, s, step).rows
    ensures id in s.rows
  {
    hide Picks, FinishRow;
  }

  lemma OnlyEnqueueIsNew(cfg: Settings, s: State, step: Step, id: JobId)
    requires Enabled(cfg, s, step) && id !in s.history && id in Apply(cfg, s, step).history
    ensures step.Enqueue? && step.id == id
  {
    hide Picks;
  }

  lemma ExactFresh(base: nat, maxAttempts: nat, runAt: real)
    ensures Exact(base, Fresh(maxAttempts, runAt), History(maxAttempts, 0, 0, 0, 0, 0.0, false, runAt))
  {
    DelaysAddUp(base, 1);
  }

  lemma {:induction false} SoleRun(cfg: Settings, steps: seq<Step>, id: JobId)
    requires IsRun(cfg, steps)
    ensures Sole(cfg.backoff, Run(cfg, steps), id)
  {
    if steps != [] {
      hide Apply, Sole, Known, Exact, Enabled;
      var init := steps[..|steps| - 1];
      InvRun(cfg, init);
      KnownRun(cfg, init);
      SoleRun(cfg, init, id);
      SoleStep(cfg, Run(cfg, init), steps[|steps| - 1], id);
    }
  }

  /**
   * A job no sweep ever requeued, whatever happened to other jobs, is held by one worker at most, sees at most
   * `max_attempts` claims and twice that many claims and outcomes together, and keeps its attempts within the limit.
   */
  lemma {:induction false} AttemptsStayWithinLimit(cfg: Settings, steps: seq<Step>, id: JobId)
    requires IsRun(cfg, steps) && id in Run(cfg, steps).rows && id in Run(cfg, steps).history
    requires Run(cfg, steps).history[id].requeues == 0
    ensures
      var j, h := Run(cfg, steps).rows[id], Run(cfg, steps).history[id];
      j.attempts <= j.maxAttempts && h.Claims() <= j.maxAttempts && h.Claims() + h.finishes <= 2 * j.maxAttempts
    ensures forall w, v :: Holds(Run(cfg, steps), w, id) && Holds(Run(cfg, steps), v, id) ==> w == v
  {
    SoleRun(cfg, steps, id);
    InvRun(cfg, steps);
    assert RowOk(Run(cfg, steps).rows[id], Run(cfg, steps).history[id]);
  }

  /**
   * A job that failed every one of its attempts, with no requeue and no permanent error, was claimed
   * exactly `max_attempts` times and was held back base * (2^(max_attempts - 1) - 1) seconds in all.
   */
  lemma {:induction false} TotalBackoff(cfg: Settings, steps: seq<Step>, id: JobId)
    requires IsRun(cfg, steps) && id in Run(cfg, steps).rows && id in Run(cfg, steps).history
    requires
      var j, h := Run(cfg, steps).rows[id], Run(cfg, steps).history[id];
      j.status == Failed && h.requeues == 0 && !h.permanent
    ensures
      var j, h := Run(cfg, steps).rows[id], Run(cfg, steps).history[id];
      j.maxAttempts >= 1 && h.Claims() == j.attempts == j.maxAttempts
      && h.delayed == (cfg.backoff * (Pow2(j.maxAttempts - 1) - 1)) as real
  {
    hide Run, Pow2, IsRun;
    SoleRun(cfg, steps, id);
    InvRun(cfg, steps);
    assert RowOk(Run(cfg, steps).rows[id], Run(cfg, steps).history[id]);
  }

  // ---------------------------------------------------------------- exactly when attempts stay within the limit

  /** Within its limit, and if it can still be claimed, with an attempt to spare. */
  predicate Roomy(j: Job) {
    j.attempts <= j.maxAttempts && (j.status == Pending ==> j.attempts < j.maxAttempts)
  }

  /** The sweep returns a job that has no attempt left. */
  predicate SweepsSpent(cfg: Settings, s: State, step: Step, id: JobId) {
    step.Sweep? && id in s.rows && IsStale(s.rows[id], step.now - cfg.timeout) && s.rows[id].attempts >= s.rows[id].maxAttempts
  }

  /** A step takes a job out of its limit, now or at its next claim, exactly when it is a sweep returning a spent job. */
  lemma RoomKeptExactlyWhen(cfg: Settings, s: State, step: Step, id: JobId)
    requires Inv(s) && Enabled(cfg, s, step) && id in s.rows && Roomy(s.rows[id])
    requires id in Apply(cfg, s, step).rows
    ensures Roomy(Apply(cfg, s, step).rows[id]) <==> !SweepsSpent(cfg, s, step, id)
  {
    hide RowOk, HistoryOk, AfterFinish, AfterClaim, Picks, Apart, ClaimHistory, SweepHistory, FinishHistory, Truncated, Delay;
  }

  ghost predicate IsFrugalRun(cfg: Settings, steps: seq<Step>, id: JobId) {
    steps == []
    || (IsFrugalRun(cfg, steps[..|steps| - 1], id)
        && Enabled(cfg, Run(cfg, steps[..|steps| - 1]), steps[|steps| - 1])
        && !SweepsSpent(cfg, Run(cfg, steps[..|steps| - 1]), steps[|steps| - 1], id))
  }

  /** If no sweep returns a job with no attempt left, its attempts never exceed the limit, however often it is requeued. */
  lemma {:induction false} AttemptsStayWithinLimitIfSpared(cfg: Settings, steps: seq<Step>, id: JobId)
    requires IsFrugalRun(cfg, steps, id) && id in Run(cfg, steps).rows
    ensures Roomy(Run(cfg, steps).rows[id])
  {
    if steps != [] {
      hide Apply, Roomy, SweepsSpent;
      var init, step := steps[..|steps| - 1], steps[|steps| - 1];
      FrugalIsRun(cfg, init, id);
      InvRun(cfg, init);
      if id in Run(cfg, init).rows {
        AttemptsStayWithinLimitIfSpared(cfg, init, id);
        RoomKeptExactlyWhen(cfg, Run(cfg, init), step, id);
      } else {
        NewIsRoomy(cfg, Run(cfg, init), step, id);
      }
    }
  }

  lemma {:induction false} FrugalIsRun(cfg: Settings, steps: seq<Step>, id: JobId)
    requires IsFrugalRun(cfg, steps, id)
    ensures IsRun(cfg, steps)
  {
    if steps != [] {
      FrugalIsRun(cfg, steps[..|steps| - 1], id);
    }
  }

  lemma NewIsRoomy(cfg: Settings, s: State, step: Step, id: JobId)
    requires Enabled(cfg, s, step) && id !in s.rows && id in Apply(cfg, s, step).rows
    ensures Roomy(Apply(cfg, s, step).rows[id])
  {
    hide FinishRow, Picks, Claimed, Requeued;
  }

  // ---------------------------------------------------------------- why the hypotheses are there

  lemma Extend(cfg: Settings, steps: seq<Step>, step: Step)
    ensures Run(cfg, steps + [step]) == Apply(cfg, Run(cfg, steps), step)
    ensures IsRun(cfg, steps + [step]) <==> IsRun(cfg, steps) && Enabled(cfg, Run(cfg, steps), step)
  {
    assert (steps + [step])[..|steps|] == steps;
  }

  const ONE := Settings(1, 300.0, 30)

  /** Two workers in turn claim the only job, the second one after a sweep took it from the first. */
  function TakenOver(maxAttempts: nat): seq<Step> {
    [] + [Enqueue(7, maxAttempts, 0.0)] + [LockDue("a", [7], 0.0, {})] + [CommitClaim("a", 0.0)] + [Sweep(301.0)]
    + [LockDue("b", [7], 301.0, {})] + [CommitClaim("b", 301.0)]
  }

  lemma OnlyCandidate(rows: Rows, now: real)
    requires rows.Keys == {7} && IsDue(rows[7], now)
    ensures Picks(rows, {}, now, 1, [7])
  {
  }

  lemma ReachNext(cfg: Settings, steps: seq<Step>, s: State, step: Step, s': State)
    requires IsRun(cfg, steps) && Run(cfg, steps) == s && Enabled(cfg, s, step) && Apply(cfg, s, step) == s'
    ensures IsRun(cfg, steps + [step]) && Run(cfg, steps + [step]) == s'
  {
    hide Apply, Enabled;
    Extend(cfg, steps, step);
  }

  lemma ClaimOfFresh(maxAttempts: nat)
    requires maxAttempts >= 1
    ensures
      var s2 := State(map[7 := Fresh(maxAttempts, 0.0)], map["a" := [7]], map[], map[7 := History(maxAttempts, 0, 0, 0, 0, 0.0, false, 0.0)]);
      Apply(ONE, s2, CommitClaim("a", 0.0))
      == State(map[7 := Claimed(Fresh(maxAttempts, 0.0), 0.0, "a")], map[], map["a" := [7]], map[7 := History(maxAttempts, 1, 0, 0, 0, 0.0, false, 0.0)])
  {
  }

  lemma SweepOfClaimed(maxAttempts: nat)
    ensures
      var s3 := State(map[7 := Claimed(Fresh(maxAttempts, 0.0), 0.0, "a")], map[], map["a" := [7]], map[7 := History(maxAttempts, 1, 0, 0, 0, 0.0, false, 0.0)]);
      Apply(ONE, s3, Sweep(301.0)) == SweptAway(maxAttempts)
  {
  }

  /** One claim and one sweep later. */
  function SweptAway(maxAttempts: nat): State {
    State(map[7 := Requeued(Claimed(Fresh(maxAttempts, 0.0), 0.0, "a"))], map[], map["a" := [7]], map[7 := History(maxAttempts, 1, 0, 0, 1, 0.0, false, 0.0)])
  }

  lemma FirstClaim(maxAttempts: nat)
    requires maxAttempts >= 1
    ensures
      var steps := [] + [Enqueue(7, maxAttempts, 0.0)] + [LockDue("a", [7], 0.0, {})] + [CommitClaim("a", 0.0)] + [Sweep(301.0)];
      IsRun(ONE, steps) && Run(ONE, steps) == SweptAway(maxAttempts)
  {
    var h := History(maxAttempts, 0, 0, 0, 0, 0.0, false, 0.0);
    var s1 := State(map[7 := Fresh(maxAttempts, 0.0)], map[], map[], map[7 := h]);
    var s2 := s1.(locks := map["a" := [7]]);
    var s3 := State(map[7 := Claimed(Fresh(maxAttempts, 0.0), 0.0, "a")], map[], map["a" := [7]], map[7 := h.(low := 1)]);
    var t1: seq<Step> := [] + [Enqueue(7, maxAttempts, 0.0)];
    var t2 := t1 + [LockDue("a", [7], 0.0, {})];
    assert IsRun(ONE, []) && Run(ONE, []) == EMPTY;
    OnlyCandidate(s1.rows, 0.0);
    ClaimOfFresh(maxAttempts);
    SweepOfClaimed(maxAttempts);
    hide Run, IsRun, Picks, SweptAway, SweepHistory, ClaimHistory, RequeueRows, ClaimRows, AfterClaim, Claimed;
    ReachNext(ONE, [], EMPTY, Enqueue(7, maxAttempts, 0.0), s1);
    ReachNext(ONE, t1, s1, LockDue("a", [7], 0.0, {}), s2);
    ReachNext(ONE, t2, s2, CommitClaim("a", 0.0), s3);
    ReachNext(ONE, t2 + [CommitClaim("a", 0.0)], s3, Sweep(301.0), SweptAway(maxAttempts));
  }

  lemma SecondClaim(maxAttempts: nat)
    requires maxAttempts >= 1
    ensures IsRun(ONE, TakenOver(maxAttempts))
    ensures
      var s := Run(ONE, TakenOver(maxAttempts));
      7 in s.rows && s.rows[7] == Job(Running, 2, maxAttempts, 0.0, Some(301.0), None, None, Some("b"))
      && 7 in s.history && s.history[7].requeues == 1 && s.history[7].Claims() == 2
      && s.locks == map[] && s.batches == map["a" := [7], "b" := [7]]
  {
    FirstClaim(maxAttempts);
    var t4 := [] + [Enqueue(7, maxAttempts, 0.0)] + [LockDue("a", [7], 0.0, {})] + [CommitClaim("a", 0.0)] + [Sweep(301.0)];
    var s4 := SweptAway(maxAttempts);
    var s5 := s4.(locks := map["b" := [7]]);
    OnlyCandidate(s4.rows, 301.0);
    var s6 := Apply(ONE, s5, CommitClaim("b", 301.0));
    assert s6.rows[7] == Job(Running, 2, maxAttempts, 0.0, Some(301.0), None, None, Some("b"));
    assert s6.locks == map[] && s6.batches == map["a" := [7], "b" := [7]];
    hide Run, IsRun, Picks;
    ReachNext(ONE, t4, s4, LockDue("b", [7], 301.0, {}), s5);
    ReachNext(ONE, t4 + [LockDue("b", [7], 301.0, {})], s5, CommitClaim("b", 301.0), s6);
  }

  /** The bound on claims is attained: a sweep lets a job exceed its own limit. */
  lemma AttemptsCanExceedLimit()
    ensures IsRun(ONE, TakenOver(1))
    ensures
      var s := Run(ONE, TakenOver(1));
      7 in s.rows && s.rows[7].attempts > s.rows[7].maxAttempts
      && 7 in s.history && s.history[7].Claims() == s.history[7].limit + s.history[7].requeues
  {
    SecondClaim(1);
    InvRun(ONE, TakenOver(1));
    assert RowOk(Run(ONE, TakenOver(1)).rows[7], Run(ONE, TakenOver(1)).history[7]);
  }

  lemma LateRow(j: Job, base: nat)
    requires j.attempts == 2 && j.maxAttempts == 3
    ensures
      var done := FinishRow(j, Completed, base, 302.0);
      done.status == Succeeded && FinishRow(done, Raised("timeout"), base, 303.0).status == Pending
  {
    hide Delay;
  }

  /** If a sweep takes a job from a live owner, that owner's late failure revives a finished job. */
  lemma LateFailureRevivesFinishedJob()
    ensures
      var done := TakenOver(3) + [Finish("b", Completed, 302.0)];
      var late := done + [Finish("a", Raised("timeout"), 303.0)];
      IsRun(ONE, late)
      && 7 in Run(ONE, done).rows && Run(ONE, done).rows[7].status == Succeeded
      && 7 in Run(ONE, late).rows && Run(ONE, late).rows[7].status == Pending
  {
    SecondClaim(3);
    hide Run, IsRun, TakenOver, FinishHistory, FinishRow;
    LateRow(Run(ONE, TakenOver(3)).rows[7], ONE.backoff);
    var s6 := Run(ONE, TakenOver(3));
    var s7 := Apply(ONE, s6, Finish("b", Completed, 302.0));
    var s8 := Apply(ONE, s7, Finish("a", Raised("timeout"), 303.0));
    ReachNext(ONE, TakenOver(3), s6, Finish("b", Completed, 302.0), s7);
    ReachNext(ONE, TakenOver(3) + [Finish("b", Completed, 302.0)], s7, Finish("a", Raised("timeout"), 303.0), s8);
  }

  // ---------------------------------------------------------------- a worker's tick is a run

  /** The transactions of one undisturbed tick, outcomes of the first `n` jobs included. */
  function TickSteps(w: WorkerId, ids: seq<JobId>, n: nat, sweepAt: real, claimAt: real, skipped: set<JobId>, stamp: real, world: World): seq<Step>
    requires n <= |ids|
  {
    if n == 0 then [Sweep(sweepAt)] + [LockDue(w, ids, claimAt, skipped)] + [CommitClaim(w, stamp)]
    else TickSteps(w, ids, n - 1, sweepAt, claimAt, skipped, stamp, world) + [Finish(w, world.handler(ids[n - 1]), world.finishedAt(n - 1))]
  }

  lemma RunConcat(cfg: Settings, a: seq<Step>, b: seq<Step>, step: Step)
    ensures a + (b + [step]) == (a + b) + [step]
    ensures Run(cfg, a + (b + [step])) == Apply(cfg, Run(cfg, a + b), step)
    ensures IsRun(cfg, a + (b + [step])) <==> IsRun(cfg, a + b) && Enabled(cfg, Run(cfg, a + b), step)
  {
    assert a + (b + [step]) == (a + b) + [step];
    Extend(cfg, a + b, step);
  }

  lemma TickStart(cfg: Settings, before: seq<Step>, w: WorkerId, ids: seq<JobId>, sweepAt: real, claimAt: real, skipped: set<JobId>, stamp: real)
    requires IsRun(cfg, before)
    requires Run(cfg, before).locks == map[] && Run(cfg, before).Batch(w) == []
    requires Picks(RequeueRows(Run(cfg, before).rows, sweepAt - cfg.timeout), skipped, claimAt, cfg.batchSize, ids)
    ensures
      var all := before + ([Sweep(sweepAt)] + [LockDue(w, ids, claimAt, skipped)] + [CommitClaim(w, stamp)]);
      IsRun(cfg, all)
      && Run(cfg, all).locks == map[] && Run(cfg, all).Batch(w) == ids
      && Run(cfg, all).rows == ClaimRows(RequeueRows(Run(cfg, before).rows, sweepAt - cfg.timeout), ids, stamp, w)
  {
    hide Run, IsRun, Picks, ClaimHistory, SweepHistory, RequeueRows, ClaimRows;
    var s0 := Run(cfg, before);
    var s1 := Apply(cfg, s0, Sweep(sweepAt));
    var s2 := Apply(cfg, s1, LockDue(w, ids, claimAt, skipped));
    var s3 := Apply(cfg, s2, CommitClaim(w, stamp));
    ReachNext(cfg, before, s0, Sweep(sweepAt), s1);
    ReachNext(cfg, before + [Sweep(sweepAt)], s1, LockDue(w, ids, claimAt, skipped), s2);
    ReachNext(cfg, before + [Sweep(sweepAt)] + [LockDue(w, ids, claimAt, skipped)], s2, CommitClaim(w, stamp), s3);
    assert before + ([Sweep(sweepAt)] + [LockDue(w, ids, claimAt, skipped)] + [CommitClaim(w, stamp)])
           == before + [Sweep(sweepAt)] + [LockDue(w, ids, claimAt, skipped)] + [CommitClaim(w, stamp)];
  }

  /** What the worker's tick does to the table is what these transactions do, whatever happened before. */
  lemma {:induction false} TickIsARun(cfg: Settings, before: seq<Step>, w: WorkerId, ids: seq<JobId>, n: nat, sweepAt: real, claimAt: real, skipped: set<JobId>, stamp: real, world: World)
    requires IsRun(cfg, before) && n <= |ids|
    requires Run(cfg, before).locks == map[] && Run(cfg, before).Batch(w) == []
    requires Picks(RequeueRows(Run(cfg, before).rows, sweepAt - cfg.timeout), skipped, claimAt, cfg.batchSize, ids)
    ensures
      var all := before + TickSteps(w, ids, n, sweepAt, claimAt, skipped, stamp, world);
      IsRun(cfg, all)
      && Run(cfg, all).locks == map[] && Run(cfg, all).Batch(w) == ids[n..]
      && Run(cfg, all).rows
         == FinishBatch(ClaimRows(RequeueRows(Run(cfg, before).rows, sweepAt - cfg.timeout), ids, stamp, w), ids, n, cfg.backoff, world)
  {
    hide Run, IsRun, FinishRows, Picks, FinishHistory, RequeueRows, ClaimRows;
    if n == 0 {
      TickStart(cfg, before, w, ids, sweepAt, claimAt, skipped, stamp);
    } else {
      TickIsARun(cfg, before, w, ids, n - 1, sweepAt, claimAt, skipped, stamp, world);
      var prior := TickSteps(w, ids, n - 1, sweepAt, claimAt, skipped, stamp, world);
      RunConcat(cfg, before, prior, Finish(w, world.handler(ids[n - 1]), world.finishedAt(n - 1)));
    }
  }
}
