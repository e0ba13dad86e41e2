/** The rows of scheduled jobs and of their runs, and how one execution updates them. */
module CronRows {

  /** Times are instants in seconds. The next regular time of a cron expression is a parameter. */
  datatype Job = Job(
    active: bool,
    deleted: bool,
    running: bool,
    lastRun: int,
    nextRun: int,
    failed: bool,
    runCount: nat,
    errors: nat)

  datatype Status = Running | Success | Failed

  const BACKOFF := [30, 60, 300, 900, 3600]
  const GUARD_WINDOW := 5

  predicate Due(job: Job, now: int) {
    job.active && !job.deleted && !job.running && job.nextRun <= now
  }

  /** Seconds to wait after that many failures in a row. */
  function Backoff(errors: nat): (s: int)
    requires errors > 0
    ensures 30 <= s <= 3600
  {
    BACKOFF[if errors - 1 < |BACKOFF| - 1 then errors - 1 else |BACKOFF| - 1]
  }

  function Max(a: int, b: int): (r: int)
    ensures r >= a && r >= b && (r == a || r == b)
  {
    if a < b then b else a
  }

  /** The row after an execution that ended at `now`; `regular` is the next regular time. */
  function AfterRun(job: Job, success: bool, now: int, regular: int): Job {
    var errors := if success then 0 else job.errors + 1;
    job.(running := false,
         lastRun := now,
         nextRun := if success then regular else Max(regular, now + Backoff(errors)),
         failed := !success,
         runCount := job.runCount + 1,
         errors := errors)
  }

  /** Seconds to wait after `errors` failures in a row. */
  predicate Delay(errors: nat, seconds: int) {
    && (errors == 1 ==> seconds == 30) && (errors == 2 ==> seconds == 60) && (errors == 3 ==> seconds == 300)
    && (errors == 4 ==> seconds == 900) && (errors >= 5 ==> seconds == 3600)
  }

  /** `after` is the row once an execution has ended: it is counted and the flag cleared; after a success
      the errors are forgotten and the job is next due at its regular time, and after a failure then or
      when the delay of that many failures has passed, whichever is later. */
  ghost predicate RowAfter(before: Job, after: Job, success: bool, now: int, regular: int) {
    && after.active == before.active && after.deleted == before.deleted && !after.running
    && after.lastRun == now && after.runCount == before.runCount + 1 && after.failed == !success
    && (success ==> after.errors == 0 && after.nextRun == regular)
    && (!success ==>
          && after.errors == before.errors + 1
          && (exists seconds :: Delay(after.errors, seconds) && after.nextRun == Max(regular, now + seconds)))
  }

  lemma RowAfterRun(job: Job, success: bool, now: int, regular: int)
    ensures RowAfter(job, AfterRun(job, success, now, regular), success, now, regular)
  {
    if !success {
      assert Delay(job.errors + 1, Backoff(job.errors + 1));
    }
  }

  /** After any history the job is due exactly from its next time on, if it is still active: that of the last
      execution's regular time, or the delay for the failures at the end, whichever is later. */
  lemma DueAgain(job: Job, history: seq<Execution>, now: int, seconds: int)
    requires job.errors == 0 && !job.running && history != []
    requires forall i :: 0 <= i < |history| ==> history[i].regular > history[i].now
    requires Delay(TrailingFailures(history), seconds)
    ensures var e := history[|history| - 1];
      Due(AfterAll(job, history), now) <==>
        && job.active && !job.deleted && now >= e.regular
        && (!e.success ==> now >= e.now + seconds)
  {
    BackoffTheorem(job, history);
    Unchanged(job, history);
    var e := history[|history| - 1];
    var init := AfterAll(job, history[..|history| - 1]);
    RowAfterRun(init, e.success, e.now, e.regular);
  }

  lemma {:induction false} Unchanged(job: Job, history: seq<Execution>)
    ensures var r := AfterAll(job, history); r.active == job.active && r.deleted == job.deleted
  {
    if history != [] { Unchanged(job, history[..|history| - 1]); }
  }

  /** One finished execution. */
  datatype Execution = Execution(success: bool, now: int, regular: int)

  function AfterAll(job: Job, history: seq<Execution>): Job {
    if history == [] then job else
      var e := history[|history| - 1];
      AfterRun(AfterAll(job, history[..|history| - 1]), e.success, e.now, e.regular)
  }

  /** How many executions at the end of the history failed. */
  function TrailingFailures(history: seq<Execution>): nat {
    if history == [] || history[|history| - 1].success then 0
    else TrailingFailures(history[..|history| - 1]) + 1
  }

  /** After any history of executions from a new row: every one is counted, the error count is
      the length of the current run of failures, and the job is not due again before its
      next regular time nor before the delay of that many failures. */
  lemma {:induction false} BackoffTheorem(job: Job, history: seq<Execution>)
    requires job.errors == 0 && history != []
    requires forall i :: 0 <= i < |history| ==> history[i].regular > history[i].now
    ensures var e := history[|history| - 1];
      var r := AfterAll(job, history);
      var n := TrailingFailures(history);
      && r.errors == n && r.runCount == job.runCount + |history| && !r.running
      && (forall t :: Due(r, t) ==> t >= e.regular > e.now)
      && (n > 0 ==> forall t :: Due(r, t) ==> t >= e.now + Backoff(n))
      && (n == 0 ==> r.nextRun == e.regular)
  {
    if |history| > 1 {
      var init := history[..|history| - 1];
      BackoffTheorem(job, init);
    } else {
      assert history[..0] == [];
    }
  }

  // ----- the guard against a second execution -----

  predicate HasRunning(runs: seq<Status>) {
    exists i :: 0 <= i < |runs| && runs[i] == Running
  }

  /** Only the newest run may be running. */
  predicate OnlyNewestRuns(runs: seq<Status>) {
    forall i :: 0 <= i < |runs| - 1 ==> runs[i] != Running
  }

  /** `list_runs`: the newest runs first. */
  function Newest(runs: seq<Status>, limit: nat): (r: seq<Status>)
    ensures |r| == if |runs| < limit then |runs| else limit
    ensures forall i :: 0 <= i < |r| ==> r[i] == runs[|runs| - 1 - i]
  {
    if runs == [] || limit == 0 then []
    else [runs[|runs| - 1]] + Newest(runs[..|runs| - 1], limit - 1)
  }

  /** Looking at the 5 newest runs is looking at all of them. */
  lemma WindowIsEnough(runs: seq<Status>)
    requires OnlyNewestRuns(runs)
    ensures HasRunning(Newest(runs, GUARD_WINDOW)) <==> HasRunning(runs)
  {
    var w := Newest(runs, GUARD_WINDOW);
    if HasRunning(runs) {
      var i :| 0 <= i < |runs| && runs[i] == Running;
      assert w[0] == Running;
    }
    if HasRunning(w) {
      var i :| 0 <= i < |w| && w[i] == Running;
      assert runs[|runs| - 1 - i] == Running;
    }
  }

  /** The condition is needed: an older running run hides behind five newer ones. */
  lemma WindowCanMiss()
    ensures exists runs :: HasRunning(runs) && !HasRunning(Newest(runs, GUARD_WINDOW))
  {
    var runs := [Running, Failed, Failed, Failed, Failed, Failed];
    assert runs[0] == Running;
    assert HasRunning(runs) && !HasRunning(Newest(runs, GUARD_WINDOW));
  }

  // ----- the program -----

  /** One job's row and its runs, oldest first. */
  class JobTable {
    var job: Job
    var runs: seq<Status>

    constructor (job: Job)
      ensures this.job == job && runs == []
    {
      this.job := job;
      runs := [];
    }

    /** The guard's loop over the newest runs. */
    method FindRunning() returns (found: bool)
      ensures found <==> HasRunning(Newest(runs, GUARD_WINDOW))
      ensures OnlyNewestRuns(runs) ==> (found <==> HasRunning(runs))
    {
      if OnlyNewestRuns(runs) { WindowIsEnough(runs); }
      var existing := Newest(runs, GUARD_WINDOW);
      var i := 0;
      while i < |existing|
        invariant 0 <= i <= |existing|
        invariant forall k :: 0 <= k < i ==> existing[k] != Running
      {
        if existing[i] == Running {
          return true;
        }
        i := i + 1;
      }
      found := false;
    }

    method MarkRun(success: bool, now: int, regular: int)
      modifies this`job
      ensures job == AfterRun(old(job), success, now, regular)
      ensures RowAfter(old(job), job, success, now, regular)
    {
      RowAfterRun(job, success, now, regular);
      var errors, next := 0, regular;
      if !success {
        errors := job.errors + 1;
        var k := errors - 1;
        if k > |BACKOFF| - 1 {
          k := |BACKOFF| - 1;
        }
        if now + BACKOFF[k] > next {
          next := now + BACKOFF[k];
        }
      }
      job := job.(running := false, lastRun := now, nextRun := next, failed := !success,
                  runCount := job.runCount + 1, errors := errors);
    }
  }
}
