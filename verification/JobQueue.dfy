/**
 * The jobs table that serves as the queue: claiming, finishing, retrying with backoff, requeueing.
 *
 * Time is real and measured in seconds. Job ids are naturals because version 7 identifiers sort by
 * creation. Row locks held by other transactions are the parameter `locked`.
 */
module JobQueue {
  import opened Prelude

  type JobId = nat

  datatype Status = Pending | Running | Succeeded | Failed | Cancelled

  datatype Job = Job(
    status: Status,
    attempts: nat,
    maxAttempts: nat,
    runAt: real,
    startedAt: Option<real>,
    finishedAt: Option<real>,
    lastError: Option<string>,
    workerId: Option<string>)

  type Rows = map<JobId, Job>

  // ---------------------------------------------------------------- what each operation does to a row

  function Fresh(maxAttempts: nat, runAt: real): Job {
    Job(Pending, 0, maxAttempts, runAt, None, None, None, None)
  }

  function Claimed(j: Job, stamp: real, worker: string): Job {
    j.(status := Running, attempts := j.attempts + 1, startedAt := Some(stamp), lastError := None, workerId := Some(worker))
  }

  function Finished(j: Job, now: real): Job {
    j.(status := Succeeded, finishedAt := Some(now), lastError := None)
  }

  /** base * 2^(attempts - 1) seconds; half of `base` for a job that was never attempted. */
  function Delay(base: nat, attempts: nat): real {
    (base * Pow2(attempts)) as real / 2.0
  }

  function Truncated(error: string): string {
    if |error| <= 2000 then error else error[..2000]
  }

  function Errored(j: Job, error: string, base: nat, now: real): Job {
    if j.attempts < j.maxAttempts then
      j.(lastError := Some(Truncated(error)), status := Pending, runAt := now + Delay(base, j.attempts), startedAt := None)
    else
      j.(lastError := Some(Truncated(error)), status := Failed, finishedAt := Some(now))
  }

  predicate IsStale(j: Job, cutoff: real) {
    j.status == Running && j.startedAt.Some? && j.startedAt.value < cutoff
  }

  function Requeued(j: Job): Job {
    j.(status := Pending, startedAt := None, lastError := Some("worker timed out; requeued"))
  }

  // ---------------------------------------------------------------- which rows a claim takes

  predicate IsDue(j: Job, now: real) {
    j.status == Pending && j.runAt <= now
  }

  predicate Earlier(rows: Rows, a: JobId, b: JobId)
    requires a in rows && b in rows
  {
    rows[a].runAt < rows[b].runAt || (rows[a].runAt == rows[b].runAt && a < b)
  }

  ghost predicate Eligible(rows: Rows, locked: set<JobId>, now: real, id: JobId) {
    id in rows && id !in locked && IsDue(rows[id], now)
  }

  ghost predicate InOrder(rows: Rows, ids: seq<JobId>) {
    (forall i :: 0 <= i < |ids| ==> ids[i] in rows)
    && forall i, j :: 0 <= i < j < |ids| ==> ids[i] in rows && ids[j] in rows && Earlier(rows, ids[i], ids[j])
  }

  /**
   * The candidate query: due rows nobody has locked, ordered by (run_at, id), at most `batch` of them,
   * and a row left out only because the batch was already full of earlier ones.
   */
  ghost predicate Picks(rows: Rows, locked: set<JobId>, now: real, batch: nat, ids: seq<JobId>) {
    |ids| <= batch && InOrder(rows, ids)
    && (forall id :: id in ids ==> Eligible(rows, locked, now, id))
    && forall id :: Eligible(rows, locked, now, id) && id !in ids ==>
         |ids| == batch && forall i :: 0 <= i < |ids| ==> ids[i] in rows && Earlier(rows, ids[i], id)
  }

  lemma PrefixPointwise(a: seq<JobId>, b: seq<JobId>, k: nat)
    requires k <= |a| && k <= |b| && a[..k] == b[..k]
    ensures forall m :: 0 <= m < k ==> a[m] == b[m]
  {
    forall m | 0 <= m < k
      ensures a[m] == b[m]
    {
      assert a[..k][m] == b[..k][m];
    }
  }

  lemma PicksAgreeAt(rows: Rows, locked: set<JobId>, now: real, batch: nat, a: seq<JobId>, b: seq<JobId>, k: nat)
    requires Picks(rows, locked, now, batch, a) && Picks(rows, locked, now, batch, b)
    requires k < |a| && k < |b| && a[..k] == b[..k]
    ensures !Earlier(rows, a[k], b[k])
  {
    PrefixPointwise(a, b, k);
    if a[k] in b {
      var m :| 0 <= m < |b| && b[m] == a[k];
      assert m >= k;
    } else {
      assert Eligible(rows, locked, now, a[k]);
    }
  }

  lemma {:induction false} PicksPrefix(rows: Rows, locked: set<JobId>, now: real, batch: nat, a: seq<JobId>, b: seq<JobId>, k: nat)
    requires Picks(rows, locked, now, batch, a) && Picks(rows, locked, now, batch, b)
    requires k <= |a| && k <= |b|
    ensures a[..k] == b[..k]
  {
    if k > 0 {
      PicksPrefix(rows, locked, now, batch, a, b, k - 1);
      PicksAgreeAt(rows, locked, now, batch, a, b, k - 1);
      PicksAgreeAt(rows, locked, now, batch, b, a, k - 1);
      assert a[..k] == a[..k - 1] + [a[k - 1]] && b[..k] == b[..k - 1] + [b[k - 1]];
    }
  }

  /** An answer that stops short of another eligible row has filled its batch. */
  lemma StopsOnlyWhenFull(rows: Rows, locked: set<JobId>, now: real, batch: nat, a: seq<JobId>, b: seq<JobId>)
    requires Picks(rows, locked, now, batch, a)
    requires InOrder(rows, b) && |a| < |b| && b[..|a|] == a[..|a|]
    requires Eligible(rows, locked, now, b[|a|])
    ensures |a| == batch
  {
    PrefixPointwise(a, b, |a|);
    assert b[|a|] !in a;
  }

  lemma PicksNotLonger(rows: Rows, locked: set<JobId>, now: real, batch: nat, a: seq<JobId>, b: seq<JobId>)
    requires Picks(rows, locked, now, batch, a) && Picks(rows, locked, now, batch, b)
    ensures |b| <= |a|
  {
    if |a| < |b| {
      PicksPrefix(rows, locked, now, batch, a, b, |a|);
      StopsOnlyWhenFull(rows, locked, now, batch, a, b);
    }
  }

  /** The query has exactly one answer. */
  lemma PicksUnique(rows: Rows, locked: set<JobId>, now: real, batch: nat, a: seq<JobId>, b: seq<JobId>)
    requires Picks(rows, locked, now, batch, a) && Picks(rows, locked, now, batch, b)
    ensures a == b
  {
    PicksNotLonger(rows, locked, now, batch, a, b);
    PicksNotLonger(rows, locked, now, batch, b, a);
    PicksPrefix(rows, locked, now, batch, a, b, |a|);
  }

  // ---------------------------------------------------------------- what each operation does to the table

  function ClaimRows(rows: Rows, ids: seq<JobId>, stamp: real, worker: string): Rows {
    map id | id in rows :: if id in ids then Claimed(rows[id], stamp, worker) else rows[id]
  }

  function RequeueRows(rows: Rows, cutoff: real): Rows {
    map id | id in rows :: if IsStale(rows[id], cutoff) then Requeued(rows[id]) else rows[id]
  }

  /** How one run of a handler ended. */
  datatype Outcome = Completed | Raised(error: string) | TimedOut | Unregistered

  function ErrorOf(o: Outcome): Option<string> {
    match o
    case Completed => None
    case Raised(error) => Some(error)
    case TimedOut => Some("job_timeout")
    case Unregistered => Some("unknown_task")
  }

  function FinishRow(j: Job, o: Outcome, base: nat, now: real): Job {
    match ErrorOf(o)
    case None => Finished(j, now)
    case Some(error) =>
      Errored(if o.Unregistered? then j.(attempts := j.maxAttempts) else j, error, base, now)
  }

  function FinishRows(rows: Rows, id: JobId, o: Outcome, base: nat, now: real): Rows {
    if id in rows then rows[id := FinishRow(rows[id], o, base, now)] else rows
  }

  // ---------------------------------------------------------------- the repository

  class JobClaimRepository {
    var rows: Rows

    constructor (rows: Rows)
      ensures this.rows == rows
    {
      this.rows := rows;
    }

    /** The candidate query, answered by repeated selection of the earliest eligible row. */
    method Candidates(batchSize: nat, locked: set<JobId>, now: real) returns (ids: seq<JobId>)
      ensures Picks(rows, locked, now, batchSize, ids)
    {
      ids := [];
      var pool := set id | id in rows && id !in locked && IsDue(rows[id], now);
      while pool != {} && |ids| < batchSize
        invariant |ids| <= batchSize && InOrder(rows, ids)
        invariant forall id :: Eligible(rows, locked, now, id) <==> id in pool || id in ids
        invariant forall i, id :: 0 <= i < |ids| && id in pool ==> id in rows && Earlier(rows, ids[i], id)
        decreases pool
      {
        var first := EarliestOf(pool);
        ids := ids + [first];
        pool := pool - {first};
      }
    }

    method EarliestOf(pool: set<JobId>) returns (first: JobId)
      requires pool != {} && pool <= rows.Keys
      ensures first in pool
      ensures forall id :: id in pool && id != first ==> Earlier(rows, first, id)
    {
      first :| first in pool;
      var rest := pool - {first};
      while rest != {}
        invariant rest <= pool && first in pool && first !in rest
        invariant forall id :: id in pool - rest && id != first ==> Earlier(rows, first, id)
        decreases rest
      {
        var id :| id in rest;
        ghost var best := first;
        if Earlier(rows, id, first) {
          first := id;
        }
        rest := rest - {id};
        forall other | other in pool - rest && other != first
          ensures Earlier(rows, first, other)
        {
          assert other == id || other == best || Earlier(rows, best, other);
        }
      }
    }

    method Claim(batchSize: nat, worker: string, locked: set<JobId>, now: real, stamp: real)
      returns (ids: seq<JobId>)
      modifies this
      ensures Picks(old(rows), locked, now, batchSize, ids)
      ensures rows == ClaimRows(old(rows), ids, stamp, worker)
      ensures rows.Keys == old(rows).Keys
      ensures forall id :: id in rows ==>
        (rows[id] != old(rows)[id] <==> id in ids)
        && (rows[id] != old(rows)[id] ==> old(rows)[id].status == Pending && old(rows)[id].runAt <= now && id !in locked)
    {
      ids := Candidates(batchSize, locked, now);
      ghost var before := rows;
      if ids == [] {
        assert ClaimRows(rows, ids, stamp, worker) == rows;
        return;
      }
      rows := map id | id in rows ::
        if id in ids then rows[id].(status := Running, attempts := rows[id].attempts + 1, startedAt := Some(stamp), lastError := None)
        else rows[id];
      ghost var updated := rows;
      for i := 0 to |ids|
        invariant rows.Keys == before.Keys
        invariant forall id :: id in before ==>
          rows[id] == if id in ids[..i] then Claimed(before[id], stamp, worker) else updated[id]
      {
        assert ids[..i + 1] == ids[..i] + [ids[i]];
        rows := rows[ids[i] := rows[ids[i]].(workerId := Some(worker))];
      }
      assert ids[..|ids|] == ids;
      assert rows == ClaimRows(before, ids, stamp, worker);
    }

    method MarkSucceeded(id: JobId, now: real)
      requires id in rows
      modifies this
      ensures rows == old(rows)[id := Finished(old(rows)[id], now)]
    {
      var job := rows[id];
      job := job.(status := Succeeded);
      job := job.(finishedAt := Some(now));
      job := job.(lastError := None);
      rows := rows[id := job];
    }

    method MarkFailed(id: JobId, error: string, base: nat, now: real)
      requires id in rows
      modifies this
      ensures rows == old(rows)[id := Errored(old(rows)[id], error, base, now)]
    {
      var job := rows[id];
      job := job.(lastError := Some(if |error| <= 2000 then error else error[..2000]));
      if job.attempts < job.maxAttempts {
        job := job.(status := Pending);
        var delay := Delay(base, job.attempts);
        job := job.(runAt := now + delay);
        job := job.(startedAt := None);
      } else {
        job := job.(status := Failed);
        job := job.(finishedAt := Some(now));
      }
      rows := rows[id := job];
    }

    method RequeueStale(timeout: real, now: real) returns (count: nat)
      modifies this
      ensures rows == RequeueRows(old(rows), now - timeout)
      ensures count == |set id | id in old(rows) && IsStale(old(rows)[id], now - timeout)|
      ensures rows.Keys == old(rows).Keys
      ensures forall id :: id in rows ==>
        (rows[id] != old(rows)[id] <==>
           old(rows)[id].status == Running && old(rows)[id].startedAt.Some? && old(rows)[id].startedAt.value < now - timeout)
    {
      var cutoff := now - timeout;
      var stale := set id | id in rows && IsStale(rows[id], cutoff);
      rows := map id | id in rows :: if id in stale then Requeued(rows[id]) else rows[id];
      count := |stale|;
    }
  }

  // ---------------------------------------------------------------- one worker, one tick

  datatype Settings = Settings(batchSize: nat, timeout: real, backoff: nat)

  /** What the world does to one batch: how each handler ends, and when the k-th outcome is recorded. */
  datatype World = World(handler: JobId -> Outcome, finishedAt: nat -> real)

  /** The outcomes of the first `n` jobs of a batch, recorded in order. */
  function FinishBatch(rows: Rows, ids: seq<JobId>, n: nat, base: nat, world: World): Rows
    requires n <= |ids|
  {
    if n == 0 then rows
    else FinishRows(FinishBatch(rows, ids, n - 1, base, world), ids[n - 1], world.handler(ids[n - 1]), base, world.finishedAt(n - 1))
  }

  class Worker {
    const repository: JobClaimRepository
    const settings: Settings
    const workerId: string

    constructor (repository: JobClaimRepository, settings: Settings, workerId: string)
      ensures this.repository == repository && this.settings == settings && this.workerId == workerId
    {
      this.repository := repository;
      this.settings := settings;
      this.workerId := workerId;
    }

    /** Records an outcome in a transaction of its own; a row deleted meanwhile is left alone. */
    method Finish(id: JobId, error: Option<string>, permanent: bool, now: real)
      modifies repository
      ensures repository.rows ==
        if id !in old(repository.rows) then old(repository.rows)
        else
          var job := old(repository.rows)[id];
          old(repository.rows)[id :=
            if error.None? then Finished(job, now)
            else Errored(if permanent then job.(attempts := job.maxAttempts) else job, error.value, settings.backoff, now)]
    {
      if id !in repository.rows {
        return;
      }
      if error.None? {
        repository.MarkSucceeded(id, now);
        return;
      }
      if permanent {
        var job := repository.rows[id];
        repository.rows := repository.rows[id := job.(attempts := job.maxAttempts)];
      }
      repository.MarkFailed(id, error.value, settings.backoff, now);
    }

    method RunJob(id: JobId, outcome: Outcome, now: real)
      modifies repository
      ensures repository.rows == FinishRows(old(repository.rows), id, outcome, settings.backoff, now)
    {
      match outcome {
        case Unregistered => Finish(id, Some("unknown_task"), true, now);
        case TimedOut => Finish(id, Some("job_timeout"), false, now);
        case Raised(error) => Finish(id, Some(error), false, now);
        case Completed => Finish(id, None, false, now);
      }
    }

    /** One tick without interference: sweep, claim, then run and record the batch one job at a time. */
    method Tick(locked: set<JobId>, sweepAt: real, claimAt: real, stamp: real, world: World) returns (ids: seq<JobId>)
      modifies repository
      ensures
        var swept := RequeueRows(old(repository.rows), sweepAt - settings.timeout);
        Picks(swept, locked, claimAt, settings.batchSize, ids)
        && repository.rows == FinishBatch(ClaimRows(swept, ids, stamp, workerId), ids, |ids|, settings.backoff, world)
    {
      hide FinishRows, RequeueRows, ClaimRows, Picks;
      var requeued := repository.RequeueStale(settings.timeout, sweepAt);
      ids := repository.Claim(settings.batchSize, workerId, locked, claimAt, stamp);
      ghost var claimed := repository.rows;
      for n := 0 to |ids|
        invariant repository.rows == FinishBatch(claimed, ids, n, settings.backoff, world)
      {
        RunJob(ids[n], world.handler(ids[n]), world.finishedAt(n));
      }
    }
  }
}
