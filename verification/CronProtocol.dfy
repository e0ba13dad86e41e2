/** Scanners, workers and backend requests as concurrent processes over the shared rows. */
module CronProtocol {
  import opened Wrappers
  import opened CronRows

  /** A scan in progress: jobs selected and not handled yet, and the one marked but not dispatched. */
  datatype Scanner = Scanner(todo: seq<nat>, held: Option<nat>)

  /** A dispatched task, waiting in the queue or for the answer to a request. */
  datatype Task = Queued(job: nat, retries: nat) | Waiting(job: nat, retries: nat, request: nat)

  /** A backend request: received; past the guard but its run not created yet; executing; recording
      a failure; updating the job row; answered with a status code. */
  datatype Request =
    | Received(job: nat)
    | Passed(job: nat)
    | Working(job: nat, run: nat)
    | Failing(job: nat, run: nat)
    | Closing(job: nat, run: nat, success: bool)
    | Answered(job: nat, code: nat)

  datatype World = World(
    jobs: map<nat, Job>,
    runs: map<nat, seq<Status>>,
    scanners: map<nat, Scanner>,
    tasks: map<nat, Task>,
    requests: map<nat, Request>,
    lost: set<nat>)

  const MAX_RETRIES := 3
  const START := World(map[], map[], map[], map[], map[], {})

  function RunsOf(w: World, j: nat): seq<Status> {
    if j in w.runs then w.runs[j] else []
  }

  /** What the backend checks before executing. */
  predicate Admits(w: World, j: nat) {
    && j in w.jobs && w.jobs[j].active && !w.jobs[j].deleted
    && !HasRunning(Newest(RunsOf(w, j), GUARD_WINDOW))
  }

  datatype Step =
    | AddJob(job: nat, row: Job)
    | EditJob(job: nat, row: Job)
    | Select(scanner: nat, due: seq<nat>, now: int)
    | Mark(scanner: nat)
    | Dispatch(scanner: nat, task: nat)
    | DispatchFails(scanner: nat)
    | Post(task: nat, request: nat)
    | Check(request: nat)
    | Create(request: nat)
    | Succeed(request: nat)
    | Raise(request: nat)
    | RecordFailure(request: nat, recorded: bool)
    | Close(request: nat, now: int, regular: int)
    | CloseRaises(request: nat, applied: bool, now: int, regular: int)
    | Reject(request: nat, code: nat)
    | BackendDies(request: nat)
    | GetAnswer(task: nat)
    | TimeOut(task: nat)
    | WorkerDies(task: nat, redelivered: bool)

  predicate Enabled(w: World, s: Step) {
    match s
    case AddJob(j, row) => j !in w.jobs && !row.running
    case EditJob(j, row) => j in w.jobs && row.running == w.jobs[j].running
    case Select(p, due, now) => p !in w.scanners && forall i :: 0 <= i < |due| ==> due[i] in w.jobs && Due(w.jobs[due[i]], now)
    case Mark(p) => p in w.scanners && w.scanners[p].held.None? && w.scanners[p].todo != []
    case Dispatch(p, t) => p in w.scanners && w.scanners[p].held.Some? && t !in w.tasks
    case DispatchFails(p) => p in w.scanners && w.scanners[p].held.Some?
    case Post(t, r) => t in w.tasks && w.tasks[t].Queued? && r !in w.requests
    case Check(r) => r in w.requests && w.requests[r].Received?
    case Create(r) => r in w.requests && w.requests[r].Passed?
    case Succeed(r) => r in w.requests && w.requests[r].Working?
    case Raise(r) => r in w.requests && w.requests[r].Working?
    case RecordFailure(r, _) => r in w.requests && w.requests[r].Failing?
    case Close(r, now, regular) => r in w.requests && w.requests[r].Closing? && regular > now
    case CloseRaises(r, _, now, regular) => r in w.requests && w.requests[r].Closing? && regular > now
    case Reject(r, code) => r in w.requests && (w.requests[r].Received? || w.requests[r].Passed?) && code >= 400
    case BackendDies(r) => r in w.requests
    case GetAnswer(t) => t in w.tasks && w.tasks[t].Waiting? && w.tasks[t].request in w.requests && w.requests[w.tasks[t].request].Answered?
    case TimeOut(t) => t in w.tasks && w.tasks[t].Waiting?
    case WorkerDies(t, _) => t in w.tasks
  }

  function Unmarked(jobs: map<nat, Job>, j: nat): map<nat, Job> {
    if j in jobs then jobs[j := jobs[j].(running := false)] else jobs
  }

  /** The task's last act: clear the flag, and go back to the queue if it may retry. */
  function EndTask(w: World, t: nat, retry: bool): World
    requires t in w.tasks
  {
    var task := w.tasks[t];
    w.(jobs := Unmarked(w.jobs, task.job), lost := w.lost - {task.job},
       tasks := if retry && task.retries > 0 then w.tasks[t := Queued(task.job, task.retries - 1)] else w.tasks - {t})
  }

  function SetRun(w: World, j: nat, i: nat, status: Status): (v: World)
    ensures v == w.(runs := v.runs)
    ensures |RunsOf(v, j)| == |RunsOf(w, j)| && forall k :: k != j ==> RunsOf(v, k) == RunsOf(w, k)
  {
    var runs := RunsOf(w, j);
    if i < |runs| then w.(runs := w.runs[j := runs[i := status]]) else w
  }

  /** The execution's outcome on the job's row, which clears the flag. */
  function UpdateRow(w: World, j: nat, success: bool, now: int, regular: int): (v: World)
    ensures v.runs == w.runs && v.scanners == w.scanners && v.tasks == w.tasks && v.requests == w.requests
    ensures !Marked(v, j) && j !in v.lost <== j in w.jobs
    ensures forall k :: k != j || j !in w.jobs ==> (Marked(v, k) <==> Marked(w, k)) && (k in v.lost <==> k in w.lost)
  {
    if j in w.jobs then w.(jobs := w.jobs[j := AfterRun(w.jobs[j], success, now, regular)], lost := w.lost - {j}) else w
  }

  /** Nothing is left that would clear the job's flag, if it is set. */
  function Lose(w: World, j: nat): set<nat> {
    if Marked(w, j) then w.lost + {j} else w.lost
  }

  function SetRequest(w: World, r: nat, x: Request): World {
    w.(requests := w.requests[r := x])
  }

  function Next(w: World, s: Step): World
    requires Enabled(w, s)
  {
    match s
    case AddJob(j, row) => w.(jobs := w.jobs[j := row])
    case EditJob(j, row) => w.(jobs := w.jobs[j := row])
    case Select(p, due, _) => w.(scanners := w.scanners[p := Scanner(due, None)])
    case Mark(p) =>
      var j := w.scanners[p].todo[0];
      w.(jobs := if j in w.jobs then w.jobs[j := w.jobs[j].(running := true)] else w.jobs,
         scanners := w.scanners[p := Scanner(w.scanners[p].todo[1..], Some(j))])
    case Dispatch(p, t) =>
      var j := w.scanners[p].held.value;
      w.(scanners := w.scanners[p := w.scanners[p].(held := None)], tasks := w.tasks[t := Queued(j, MAX_RETRIES)])
    case DispatchFails(p) =>
      w.(scanners := w.scanners - {p}, lost := Lose(w, w.scanners[p].held.value))
    case Post(t, r) =>
      var task := w.tasks[t];
      w.(tasks := w.tasks[t := Waiting(task.job, task.retries, r)], requests := w.requests[r := Received(task.job)])
    case Check(r) =>
      var j := w.requests[r].job;
      SetRequest(w, r, if Admits(w, j) then Passed(j) else Answered(j, 200))
    case Create(r) =>
      var j := w.requests[r].job;
      var runs := RunsOf(w, j);
      SetRequest(w.(runs := w.runs[j := runs + [Running]]), r, Working(j, |runs|))
    case Succeed(r) =>
      var x := w.requests[r];
      SetRequest(SetRun(w, x.job, x.run, Success), r, Closing(x.job, x.run, true))
    case Raise(r) =>
      SetRequest(w, r, Failing(w.requests[r].job, w.requests[r].run))
    case RecordFailure(r, recorded) =>
      var x := w.requests[r];
      SetRequest(if recorded then SetRun(w, x.job, x.run, Failed) else w, r, Closing(x.job, x.run, false))
    case Close(r, now, regular) =>
      var x := w.requests[r];
      SetRequest(UpdateRow(w, x.job, x.success, now, regular), r, Answered(x.job, 200))
    case CloseRaises(r, applied, now, regular) =>
      var x := w.requests[r];
      SetRequest(if applied then UpdateRow(w, x.job, x.success, now, regular) else w,
                 r, if x.success then Failing(x.job, x.run) else Answered(x.job, 500))
    case Reject(r, code) =>
      SetRequest(w, r, Answered(w.requests[r].job, code))
    case BackendDies(r) =>
      w.(requests := w.requests - {r})
    case GetAnswer(t) =>
      EndTask(w, t, w.requests[w.tasks[t].request].code >= 500)
    case TimeOut(t) =>
      EndTask(w, t, true)
    case WorkerDies(t, redelivered) =>
      if redelivered then w.(tasks := w.tasks[t := Queued(w.tasks[t].job, w.tasks[t].retries)])
      else w.(tasks := w.tasks - {t}, lost := Lose(w, w.tasks[t].job))
  }

  ghost predicate IsRun(states: seq<World>, steps: seq<Step>) {
    && |states| == |steps| + 1 && states[0] == START
    && forall i :: 0 <= i < |steps| ==> Enabled(states[i], steps[i]) && states[i + 1] == Next(states[i], steps[i])
  }

  // ----- no job executes twice at once -----

  /** The guard and the creation of the run are one step for each job: no request is let past the
      guard while another one for the job is between the two. */
  predicate Exclusive(w: World, s: Step) {
    s.Check? && s.request in w.requests && Admits(w, w.requests[s.request].job) ==>
      forall r :: r in w.requests && w.requests[r].Passed? ==> w.requests[r].job != w.requests[s.request].job
  }

  predicate RunsOk(w: World) {
    forall j :: j in w.runs ==> OnlyNewestRuns(w.runs[j])
  }

  /** An executing request works on its job's newest run, which is running. */
  predicate WorkOk(w: World) {
    forall r :: r in w.requests && w.requests[r].Working? ==>
      var runs := RunsOf(w, w.requests[r].job);
      w.requests[r].run == |runs| - 1 && runs[|runs| - 1] == Running
  }

  /** A request past the guard is alone there, and its job has no running run. */
  predicate PassOk(w: World) {
    && (forall r :: r in w.requests && w.requests[r].Passed? ==> !HasRunning(RunsOf(w, w.requests[r].job)))
    && (forall p, q | p in w.requests && q in w.requests && w.requests[p].Passed? && w.requests[q].Passed? ::
          w.requests[p].job == w.requests[q].job ==> p == q)
  }

  predicate HasRun(x: Request) { x.Working? || x.Failing? || x.Closing? }

  /** Each run belongs to one request. */
  predicate Owned(w: World) {
    && (forall r :: r in w.requests && HasRun(w.requests[r]) ==> w.requests[r].run < |RunsOf(w, w.requests[r].job)|)
    && (forall p, q | p in w.requests && q in w.requests && HasRun(w.requests[p]) && HasRun(w.requests[q]) ::
          w.requests[p].job == w.requests[q].job && w.requests[p].run == w.requests[q].run ==> p == q)
  }

  predicate Safe(w: World) {
    RunsOk(w) && WorkOk(w) && PassOk(w) && Owned(w)
  }

  lemma CheckSafe(w: World, r: nat)
    requires Safe(w) && Enabled(w, Check(r)) && Exclusive(w, Check(r))
    ensures Safe(Next(w, Check(r)))
  {
    var j := w.requests[r].job;
    if Admits(w, j) {
      WindowIsEnough(RunsOf(w, j));
      hide HasRunning, OnlyNewestRuns, Newest, Admits;
      PassSafe(w, r);
    } else {
      hide HasRunning, OnlyNewestRuns, Newest, Admits, Safe, SetRequest;
      MoveSafe(w, r, Answered(j, 200));
    }
  }

  lemma PassSafe(w: World, r: nat)
    requires Safe(w) && r in w.requests && !HasRunning(RunsOf(w, w.requests[r].job))
    requires forall q :: q in w.requests && w.requests[q].Passed? ==> w.requests[q].job != w.requests[r].job
    ensures Safe(SetRequest(w, r, Passed(w.requests[r].job)))
  {
    hide HasRunning, OnlyNewestRuns;
    var v := SetRequest(w, r, Passed(w.requests[r].job));
    assert forall j :: RunsOf(v, j) == RunsOf(w, j);
    assert forall q :: q in v.requests && q != r ==> q in w.requests && v.requests[q] == w.requests[q];
  }

  lemma CreateRuns(runs: seq<Status>)
    requires !HasRunning(runs)
    ensures OnlyNewestRuns(runs + [Running])
  {
  }

  lemma CreateAdds(w: World, r: nat)
    requires Enabled(w, Create(r))
    ensures var v, j := Next(w, Create(r)), w.requests[r].job;
      && RunsOf(v, j) == RunsOf(w, j) + [Running]
      && (forall k :: k != j ==> RunsOf(v, k) == RunsOf(w, k))
      && v.requests == w.requests[r := Working(j, |RunsOf(w, j)|)]
  {
  }

  /** No request executes a job that has no running run. */
  lemma NobodyWorks(w: World, j: nat)
    requires WorkOk(w) && !HasRunning(RunsOf(w, j)) && Owned(w)
    ensures forall q :: q in w.requests && w.requests[q].Working? ==> w.requests[q].job != j
  {
  }

  lemma CreateSafe(w: World, r: nat)
    requires Safe(w) && Enabled(w, Create(r))
    ensures Safe(Next(w, Create(r)))
  {
    var j, v := w.requests[r].job, Next(w, Create(r));
    CreateAdds(w, r);
    NobodyWorks(w, j);
    CreateRuns(RunsOf(w, j));
    assert RunsOk(v) by {
      forall k | k in v.runs ensures OnlyNewestRuns(v.runs[k]) { assert v.runs[k] == RunsOf(v, k); }
    }
    assert WorkOk(v) && PassOk(v);
    CreateOwned(w, r);
  }

  lemma CreateOwned(w: World, r: nat)
    requires Owned(w) && Enabled(w, Create(r))
    ensures Owned(Next(w, Create(r)))
  {
    CreateAdds(w, r);
  }

  lemma OutcomeRecorded(runs: seq<Status>, i: nat, status: Status)
    requires i < |runs| && status != Running
    ensures OnlyNewestRuns(runs) ==> OnlyNewestRuns(runs[i := status])
    ensures !HasRunning(runs) ==> !HasRunning(runs[i := status])
  {
  }

  /** From `w` to `v` request `r` has only recorded the outcome of its run. */
  ghost predicate Records(w: World, v: World, r: nat, status: Status) {
    && r in w.requests && HasRun(w.requests[r])
    && var j, i := w.requests[r].job, w.requests[r].run;
    && i < |RunsOf(w, j)| && RunsOf(v, j) == RunsOf(w, j)[i := status]
    && (forall k :: k != j ==> RunsOf(v, k) == RunsOf(w, k))
    && (forall k :: k in v.runs <==> k in w.runs)
    && v.requests.Keys == w.requests.Keys
    && (forall q :: q in w.requests && q != r ==> v.requests[q] == w.requests[q])
    && v.requests[r].Closing? && v.requests[r].job == j && v.requests[r].run == i
  }

  lemma RecordsRuns(w: World, v: World, r: nat, status: Status)
    requires RunsOk(w) && Records(w, v, r, status) && status != Running
    ensures RunsOk(v)
  {
    OutcomeRecorded(RunsOf(w, w.requests[r].job), w.requests[r].run, status);
    forall k | k in v.runs ensures OnlyNewestRuns(v.runs[k]) {
      assert v.runs[k] == RunsOf(v, k) && w.runs[k] == RunsOf(w, k);
    }
  }

  lemma RecordsWork(w: World, v: World, r: nat, status: Status)
    requires WorkOk(w) && Owned(w) && Records(w, v, r, status)
    ensures WorkOk(v)
  {
    forall q | q in v.requests && v.requests[q].Working?
      ensures var runs := RunsOf(v, v.requests[q].job);
        v.requests[q].run == |runs| - 1 && runs[|runs| - 1] == Running
    {
      assert q != r && HasRun(w.requests[q]);
      assert w.requests[q].job == w.requests[r].job ==> w.requests[q].run != w.requests[r].run;
    }
  }

  lemma RecordsPass(w: World, v: World, r: nat, status: Status)
    requires PassOk(w) && Records(w, v, r, status) && status != Running
    ensures PassOk(v)
  {
  }

  lemma RecordsOwned(w: World, v: World, r: nat, status: Status)
    requires Owned(w) && Records(w, v, r, status)
    ensures Owned(v)
  {
  }

  /** Recording an outcome never makes a run running, and touches no other request's run. */
  lemma SetRunSafe(w: World, r: nat, status: Status, success: bool)
    requires Safe(w) && r in w.requests && status != Running
    requires w.requests[r].Working? || w.requests[r].Failing?
    ensures var x := w.requests[r];
      var v := SetRequest(SetRun(w, x.job, x.run, status), r, Closing(x.job, x.run, success));
      && Safe(v) && x.run < |RunsOf(w, x.job)|
      && (forall j :: RunsOf(v, j) == if j == x.job then RunsOf(w, j)[x.run := status] else RunsOf(w, j))
  {
    var x := w.requests[r];
    var v := SetRequest(SetRun(w, x.job, x.run, status), r, Closing(x.job, x.run, success));
    assert Records(w, v, r, status);
    hide Records;
    RecordsRuns(w, v, r, status);
    RecordsWork(w, v, r, status);
    RecordsPass(w, v, r, status);
    RecordsOwned(w, v, r, status);
  }

  /** A request that only moves on, keeping its job and its run if it still has one. */
  lemma MoveSafe(w: World, r: nat, x: Request)
    requires Safe(w) && r in w.requests && x.job == w.requests[r].job
    requires !x.Working? && !x.Passed?
    requires HasRun(x) ==> HasRun(w.requests[r]) && x.run == w.requests[r].run
    ensures Safe(SetRequest(w, r, x))
  {
  }

  /** Whatever changes only job rows, scanners and tasks, or drops requests, is harmless. */
  lemma FewerSafe(w: World, v: World)
    requires Safe(w) && v.runs == w.runs
    requires forall r :: r in v.requests && !v.requests[r].Received? ==> r in w.requests && v.requests[r] == w.requests[r]
    ensures Safe(v)
  {
    assert forall j :: RunsOf(v, j) == RunsOf(w, j);
  }

  lemma StepSafe(w: World, s: Step)
    requires Safe(w) && Enabled(w, s) && Exclusive(w, s)
    ensures Safe(Next(w, s)) && (Settled(w) ==> Settled(Next(w, s)))
  {
    assert Owned(w);
    hide Owned, Settled, Exclusive, Enabled, Next;
    StaysSafe(w, s);
    if Settled(w) { StepSettled(w, s); }
  }

  lemma StaysSafe(w: World, s: Step)
    requires Safe(w) && Enabled(w, s) && Exclusive(w, s)
    ensures Safe(Next(w, s))
  {
    hide Safe, Exclusive, Admits, Due, AfterRun, UpdateRow, SetRun, RunsOf;
    match s
    case Check(r) => CheckSafe(w, r);
    case Create(r) => CreateSafe(w, r);
    case Succeed(r) => SetRunSafe(w, r, Success, true);
    case Raise(r) => MoveSafe(w, r, Failing(w.requests[r].job, w.requests[r].run));
    case RecordFailure(r, recorded) =>
      if recorded { SetRunSafe(w, r, Failed, false); }
      else { MoveSafe(w, r, Closing(w.requests[r].job, w.requests[r].run, false)); }
    case Close(r, now, regular) =>
      var x := w.requests[r];
      var v := UpdateRow(w, x.job, x.success, now, regular);
      FewerSafe(w, v);
      MoveSafe(v, r, Answered(x.job, 200));
    case CloseRaises(r, applied, now, regular) =>
      var x := w.requests[r];
      var v := if applied then UpdateRow(w, x.job, x.success, now, regular) else w;
      FewerSafe(w, v);
      MoveSafe(v, r, if x.success then Failing(x.job, x.run) else Answered(x.job, 500));
    case Reject(r, code) => MoveSafe(w, r, Answered(w.requests[r].job, code));
    case _ =>
      OthersOnlyDrop(w, s);
      hide Next;
      FewerSafe(w, Next(w, s));
  }

  lemma OthersOnlyDrop(w: World, s: Step)
    requires Enabled(w, s)
    requires !s.Check? && !s.Create? && !s.Succeed? && !s.Raise? && !s.RecordFailure? && !s.Close? && !s.CloseRaises? && !s.Reject?
    ensures Next(w, s).runs == w.runs
    ensures forall r :: r in Next(w, s).requests && !Next(w, s).requests[r].Received? ==>
      r in w.requests && Next(w, s).requests[r] == w.requests[r]
  {
    hide Due, Admits, UpdateRow, SetRun, RunsOf, Unmarked, Lose;
  }

  lemma {:induction false} AlwaysSafe(states: seq<World>, steps: seq<Step>, n: nat)
    requires IsRun(states, steps) && n < |states|
    requires forall i :: 0 <= i < |steps| ==> Exclusive(states[i], steps[i])
    ensures Safe(states[n])
  {
    hide Safe, Exclusive, Enabled;
    if n > 0 {
      AlwaysSafe(states, steps, n - 1);
      hide Next;
      StepSafe(states[n - 1], steps[n - 1]);
    } else {
      StartIsSafe();
    }
  }

  lemma StartIsSafe()
    ensures Safe(START)
  {
  }

  /** In every run in which the guard and the creation of a run are one step for each job: at any time
      at most one of a job's runs is running, it is the newest one, looking at the 5 newest
      is looking at all, and at most one request executes the job. */
  lemma NeverTwiceAtOnce(states: seq<World>, steps: seq<Step>, n: nat)
    requires IsRun(states, steps) && n < |states|
    requires forall i :: 0 <= i < |steps| ==> Exclusive(states[i], steps[i])
    ensures Safe(states[n])
    ensures forall j :: HasRunning(Newest(RunsOf(states[n], j), GUARD_WINDOW)) <==> HasRunning(RunsOf(states[n], j))
    ensures var w := states[n];
      forall p, q | p in w.requests && q in w.requests && w.requests[p].Working? && w.requests[q].Working? ::
        w.requests[p].job == w.requests[q].job ==> p == q
  {
    AlwaysSafe(states, steps, n);
    forall j ensures HasRunning(Newest(RunsOf(states[n], j), GUARD_WINDOW)) <==> HasRunning(RunsOf(states[n], j)) {
      WindowIsEnough(RunsOf(states[n], j));
    }
  }

  // ----- which outcome is recorded -----

  /** From `w` to `v` the runs stay, and whoever has one in `v` had it in `w`. */
  ghost predicate KeepsRuns(w: World, v: World) {
    && (forall j :: RunsOf(v, j) == RunsOf(w, j))
    && (forall r :: r in v.requests && HasRun(v.requests[r]) ==>
          && r in w.requests && HasRun(w.requests[r])
          && v.requests[r].job == w.requests[r].job && v.requests[r].run == w.requests[r].run)
    && (forall r :: r in v.requests && (v.requests[r].Working? || (v.requests[r].Closing? && v.requests[r].success)) ==>
          r in w.requests && v.requests[r] == w.requests[r])
  }

  lemma OthersKeepRuns(w: World, s: Step)
    requires Enabled(w, s) && !s.Create? && !s.Succeed? && !(s.RecordFailure? && s.recorded)
    ensures KeepsRuns(w, Next(w, s))
  {
    OthersRuns(w, s);
    OthersOwn(w, s);
    OthersSettle(w, s);
    hide Next, Enabled;
  }

  lemma OthersOwn(w: World, s: Step)
    requires Enabled(w, s) && !s.Create? && !s.Succeed? && !(s.RecordFailure? && s.recorded)
    ensures var v := Next(w, s);
      forall r :: r in v.requests && HasRun(v.requests[r]) ==>
        && r in w.requests && HasRun(w.requests[r])
        && v.requests[r].job == w.requests[r].job && v.requests[r].run == w.requests[r].run
  {
    hide Due, Admits, Unmarked, Lose, SetRun, RunsOf, UpdateRow;
  }

  lemma OthersSettle(w: World, s: Step)
    requires Enabled(w, s) && !s.Create? && !s.Succeed? && !(s.RecordFailure? && s.recorded)
    ensures var v := Next(w, s);
      forall r :: r in v.requests && (v.requests[r].Working? || (v.requests[r].Closing? && v.requests[r].success)) ==>
        r in w.requests && v.requests[r] == w.requests[r]
  {
    hide Due, Admits, Unmarked, Lose, SetRun, RunsOf, UpdateRow;
  }

  lemma OthersRuns(w: World, s: Step)
    requires Enabled(w, s) && !s.Create? && !s.Succeed? && !(s.RecordFailure? && s.recorded)
    ensures Next(w, s).runs == w.runs
  {
    hide Due, Admits, Unmarked, Lose, SetRun, RunsOf;
  }

  lemma OutcomeStep(w: World, s: Step)
    requires Owned(w) && Enabled(w, s) && (s.Succeed? || (s.RecordFailure? && s.recorded))
    ensures Records(w, Next(w, s), s.request, if s.Succeed? then Success else Failed)
  {
  }

  /** A run belongs to one request in every run, whether the guard is exclusive or not. */
  lemma StepOwned(w: World, s: Step)
    requires Owned(w) && Enabled(w, s)
    ensures Owned(Next(w, s))
  {
    hide Next, Records, KeepsRuns, Enabled;
    if s.Create? {
      CreateOwned(w, s.request);
    } else if s.Succeed? || (s.RecordFailure? && s.recorded) {
      OutcomeStep(w, s);
      RecordsOwned(w, Next(w, s), s.request, if s.Succeed? then Success else Failed);
    } else {
      OthersKeepRuns(w, s);
      KeptOwned(w, Next(w, s));
    }
  }

  lemma KeptOwned(w: World, v: World)
    requires Owned(w) && KeepsRuns(w, v)
    ensures Owned(v)
  {
  }

  /** The outcome that the step records for run `i` of job `j`, if any. */
  function OutcomeOf(w: World, s: Step, j: nat, i: nat): Option<Status> {
    match s
    case Succeed(r) => if r in w.requests && w.requests[r] == Working(j, i) then Some(Success) else None
    case RecordFailure(r, recorded) =>
      if recorded && r in w.requests && w.requests[r] == Failing(j, i) then Some(Failed) else None
    case _ => None
  }

  lemma StepOutcome(w: World, s: Step, j: nat, i: nat)
    requires Owned(w) && Enabled(w, s)
    ensures var old_, new_ := RunsOf(w, j), RunsOf(Next(w, s), j);
      && |old_| <= |new_|
      && (i < |old_| ==> new_[i] == match OutcomeOf(w, s, j, i) case Some(outcome) => outcome case None => old_[i])
      && (i >= |old_| ==> OutcomeOf(w, s, j, i).None? && (i < |new_| ==> new_[i] == Running))
  {
    if s.Create? {
      CreateAdds(w, s.request);
    } else if s.Succeed? || (s.RecordFailure? && s.recorded) {
      OutcomeStep(w, s);
      hide Next;
    } else {
      OthersKeepRuns(w, s);
      hide Next;
    }
  }

  /** The outcome recorded last for the run in the first `n` steps; none leaves it running. */
  function Verdict(states: seq<World>, steps: seq<Step>, n: nat, j: nat, i: nat): Status
    requires n <= |steps| < |states|
  {
    if n == 0 then Running
    else
      match OutcomeOf(states[n - 1], steps[n - 1], j, i)
      case Some(outcome) => outcome
      case None => Verdict(states, steps, n - 1, j, i)
  }

  /** In every run, exclusive or not, each run of a job has the outcome recorded last for it. */
  lemma {:induction false} OutcomeTheorem(states: seq<World>, steps: seq<Step>, n: nat, j: nat, i: nat)
    requires IsRun(states, steps) && n <= |steps|
    ensures Owned(states[n])
    ensures if i < |RunsOf(states[n], j)|
      then RunsOf(states[n], j)[i] == Verdict(states, steps, n, j, i)
      else Verdict(states, steps, n, j, i) == Running
  {
    if n > 0 {
      OutcomeTheorem(states, steps, n - 1, j, i);
      hide Owned, Next, Enabled, OutcomeOf, RunsOf;
      StepOwned(states[n - 1], steps[n - 1]);
      StepOutcome(states[n - 1], steps[n - 1], j, i);
    }
  }

  /** Success was recorded in step `m` and no failure after it. */
  ghost predicate SucceededAt(states: seq<World>, steps: seq<Step>, n: nat, j: nat, i: nat, m: nat)
    requires n <= |steps| < |states|
  {
    && m < n && OutcomeOf(states[m], steps[m], j, i) == Some(Success)
    && forall k :: m < k < n ==> OutcomeOf(states[k], steps[k], j, i) != Some(Failed)
  }

  ghost predicate Succeeded(states: seq<World>, steps: seq<Step>, n: nat, j: nat, i: nat)
    requires n <= |steps| < |states|
  {
    exists m: nat :: SucceededAt(states, steps, n, j, i, m)
  }

  /** A run stands as a success if and only if its request recorded one and no failure since. */
  lemma SuccessIff(states: seq<World>, steps: seq<Step>, n: nat, j: nat, i: nat)
    requires IsRun(states, steps) && n <= |steps| && i < |RunsOf(states[n], j)|
    ensures RunsOf(states[n], j)[i] == Success <==> Succeeded(states, steps, n, j, i)
  {
    OutcomeTheorem(states, steps, n, j, i);
    VerdictSucceeds(states, steps, n, j, i);
  }

  lemma {:induction false} VerdictSucceeds(states: seq<World>, steps: seq<Step>, n: nat, j: nat, i: nat)
    requires n <= |steps| < |states|
    ensures Verdict(states, steps, n, j, i) == Success <==> Succeeded(states, steps, n, j, i)
  {
    if n > 0 {
      var before: nat := n - 1;
      VerdictSucceeds(states, steps, before, j, i);
      var last := OutcomeOf(states[before], steps[before], j, i);
      assert last != Some(Running);
      hide OutcomeOf;
      if last == Some(Success) {
        assert SucceededAt(states, steps, n, j, i, before);
      } else {
        forall m: nat ensures SucceededAt(states, steps, n, j, i, m) <==> last.None? && SucceededAt(states, steps, before, j, i, m) {
          assert SucceededAt(states, steps, n, j, i, m) ==> m != before;
        }
        if last.None? {
          assert Verdict(states, steps, n, j, i) == Verdict(states, steps, before, j, i);
          if m: nat :| SucceededAt(states, steps, n, j, i, m) {
            assert SucceededAt(states, steps, before, j, i, m);
          }
          if m: nat :| SucceededAt(states, steps, before, j, i, m) {
            assert SucceededAt(states, steps, n, j, i, m);
          }
        } else {
          assert Verdict(states, steps, n, j, i) == Failed;
        }
      }
    }
  }

  /** A request that executes has its run running, and one that closes after success has it recorded so. */
  predicate Settled(w: World) {
    forall r :: r in w.requests ==>
      var x := w.requests[r];
      && (x.Working? ==> x.run < |RunsOf(w, x.job)| && RunsOf(w, x.job)[x.run] == Running)
      && (x.Closing? && x.success ==> x.run < |RunsOf(w, x.job)| && RunsOf(w, x.job)[x.run] == Success)
  }

  lemma StepSettled(w: World, s: Step)
    requires Owned(w) && Settled(w) && Enabled(w, s)
    ensures Settled(Next(w, s))
  {
    if s.Create? {
      CreateAdds(w, s.request);
      hide Next;
    } else if s.Succeed? || (s.RecordFailure? && s.recorded) {
      OutcomeStep(w, s);
      assert s.RecordFailure? ==> !Next(w, s).requests[s.request].success;
      hide Next;
      RecordsSettled(w, Next(w, s), s.request, if s.Succeed? then Success else Failed);
    } else {
      OthersKeepRuns(w, s);
      hide Next;
    }
  }

  lemma RecordsSettled(w: World, v: World, r: nat, status: Status)
    requires Owned(w) && Settled(w) && Records(w, v, r, status)
    requires v.requests[r].success ==> status == Success
    ensures Settled(v)
  {
    forall q | q in v.requests && q != r && HasRun(v.requests[q])
      ensures RunsOf(v, v.requests[q].job)[v.requests[q].run] == RunsOf(w, w.requests[q].job)[w.requests[q].run]
    {
      assert HasRun(w.requests[q]) && HasRun(w.requests[r]);
    }
  }

  /** In every run a request reports success only for a run that is recorded as one. */
  lemma {:induction false} ReportedAsRecorded(states: seq<World>, steps: seq<Step>, n: nat)
    requires IsRun(states, steps) && n <= |steps|
    ensures Owned(states[n]) && Settled(states[n])
  {
    if n > 0 {
      ReportedAsRecorded(states, steps, n - 1);
      hide Owned, Settled, Next, Enabled;
      StepOwned(states[n - 1], steps[n - 1]);
      StepSettled(states[n - 1], steps[n - 1]);
    }
  }

  // ----- what one step does -----

  /** The guard lets a request pass if and only if the job is there, active and not deleted, and none of
      its five newest runs is running; otherwise it is answered at once. */
  lemma GuardIs(w: World, r: nat)
    requires Enabled(w, Check(r))
    ensures var j, x := w.requests[r].job, Next(w, Check(r)).requests[r];
      if && j in w.jobs && w.jobs[j].active && !w.jobs[j].deleted
         && forall i :: 0 <= i < |RunsOf(w, j)| && i >= |RunsOf(w, j)| - 5 ==> RunsOf(w, j)[i] != Running
      then x == Passed(j)
      else x == Answered(j, 200)
  {
    var runs := RunsOf(w, w.requests[r].job);
    var newest := Newest(runs, GUARD_WINDOW);
    if HasRunning(newest) {
      var i :| 0 <= i < |newest| && newest[i] == Running;
      assert runs[|runs| - 1 - i] == Running;
    }
    if i :| 0 <= i < |runs| && i >= |runs| - 5 && runs[i] == Running {
      assert newest[|runs| - 1 - i] == Running;
    }
  }

  /** A task whose request is answered with a server error or times out clears the flag and goes back to
      the queue while it has retries left; with any other answer it clears the flag and is done. */
  lemma TaskEnds(w: World, s: Step)
    requires (s.GetAnswer? || s.TimeOut?) && Enabled(w, s)
    ensures var task, v := w.tasks[s.task], Next(w, s);
      var again := s.TimeOut? || w.requests[task.request].code >= 500;
      && !Marked(v, task.job) && (forall k :: k != task.job ==> (Marked(v, k) <==> Marked(w, k)))
      && (forall u :: u != s.task ==> (u in v.tasks <==> u in w.tasks) && (u in w.tasks ==> v.tasks[u] == w.tasks[u]))
      && (s.task in v.tasks <==> again && task.retries > 0)
      && (s.task in v.tasks ==> v.tasks[s.task] == Queued(task.job, task.retries - 1))
      && v.runs == w.runs && v.requests == w.requests && v.scanners == w.scanners
  {
  }

  /** A scan takes the selected jobs in order: it sets the flag, and then puts a task with three retries
      into the queue. */
  lemma ScanMarksFirst(w: World, s: Step)
    requires Enabled(w, s) && (s.Mark? || s.Dispatch?)
    ensures var a, v := w.scanners[s.scanner], Next(w, s);
      var b := v.scanners[s.scanner];
      && v.runs == w.runs && v.requests == w.requests
      && (s.Mark? ==>
            && b.held == Some(a.todo[0]) && [a.todo[0]] + b.todo == a.todo
            && (a.todo[0] in w.jobs ==> v.jobs == w.jobs[a.todo[0] := w.jobs[a.todo[0]].(running := true)]))
      && (s.Dispatch? ==>
            b.held.None? && b.todo == a.todo && v.jobs == w.jobs && v.tasks == w.tasks[s.task := Queued(a.held.value, 3)])
  {
  }

  /** How a request moves on: an exception in the execution leads to recording a failure, and so does one after
      success was recorded, but one after a failure is answered with a server error; a task that is
      posted waits for the answer with its retries. */
  lemma RequestMoves(w: World, s: Step)
    requires Enabled(w, s) && (s.Raise? || s.CloseRaises? || s.Reject? || s.Post? || s.RecordFailure?)
    ensures var v, r := Next(w, s), s.request;
      && v.requests.Keys == w.requests.Keys + {r}
      && (forall q :: q in w.requests && q != r ==> v.requests[q] == w.requests[q])
      && match s
         case Raise(_) => v.requests[r] == Failing(w.requests[r].job, w.requests[r].run) && v.runs == w.runs && v.jobs == w.jobs
         case RecordFailure(_, _) => v.requests[r] == Closing(w.requests[r].job, w.requests[r].run, false) && v.jobs == w.jobs
         case CloseRaises(_, applied, now, regular) =>
           var x := w.requests[r];
           && v.requests[r] == (if x.success then Failing(x.job, x.run) else Answered(x.job, 500)) && v.runs == w.runs
           && (!applied ==> v.jobs == w.jobs)
           && (applied && x.job in w.jobs ==>
                 x.job in v.jobs && RowAfter(w.jobs[x.job], v.jobs[x.job], x.success, now, regular))
         case Reject(_, code) => v.requests[r] == Answered(w.requests[r].job, code) && v.runs == w.runs && v.jobs == w.jobs
         case Post(t, _) =>
           && v.requests[r] == Received(w.tasks[t].job) && v.runs == w.runs && v.jobs == w.jobs
           && v.tasks == w.tasks[t := Waiting(w.tasks[t].job, w.tasks[t].retries, r)]
         case _ => true
  {
    if s.CloseRaises? && w.requests[s.request].job in w.jobs {
      RowAfterRun(w.jobs[w.requests[s.request].job], w.requests[s.request].success, s.now, s.regular);
    }
    hide AfterRun, RowAfter, Admits, Due;
  }

  /** Closing an execution counts it on the job's row, records whether it failed and answers. */
  lemma CloseCounts(w: World, r: nat, now: int, regular: int)
    requires Enabled(w, Close(r, now, regular)) && w.requests[r].job in w.jobs
    ensures var x, v := w.requests[r], Next(w, Close(r, now, regular));
      var before, after := w.jobs[x.job], v.jobs[x.job];
      && v.requests[r] == Answered(x.job, 200) && v.runs == w.runs
      && RowAfter(before, after, x.success, now, regular)
      && forall k :: k != x.job && k in w.jobs ==> k in v.jobs && v.jobs[k] == w.jobs[k]
  {
    RowAfterRun(w.jobs[w.requests[r].job], w.requests[r].success, now, regular);
  }

  // ----- and exactly then -----

  predicate BothPassed(w: World, p: nat, q: nat) {
    && p != q && p in w.requests && q in w.requests
    && w.requests[p].Passed? && w.requests[q].Passed? && w.requests[p].job == w.requests[q].job
  }

  predicate BothWork(w: World, p: nat, q: nat) {
    && p != q && p in w.requests && q in w.requests
    && w.requests[p].Working? && w.requests[q].Working? && w.requests[p].job == w.requests[q].job
  }

  /** Two steps from here both requests execute the job. */
  predicate MayBothWork(w: World, p: nat, q: nat) {
    && Enabled(w, Create(p)) && Enabled(Next(w, Create(p)), Create(q))
    && BothWork(Next(Next(w, Create(p)), Create(q)), p, q)
  }

  /** In any state, two requests can go on to execute one job together if they are both past its guard. */
  lemma TwoPastTheGuard(w: World, p: nat, q: nat)
    requires BothPassed(w, p, q)
    ensures MayBothWork(w, p, q)
  {
  }

  lemma SafeMeansOne(w: World, p: nat, q: nat)
    requires Safe(w)
    ensures !BothWork(w, p, q) && !BothPassed(w, p, q)
  {
  }

  lemma SafeStaysOne(w: World, p: nat, q: nat)
    requires Safe(w)
    ensures !MayBothWork(w, p, q)
  {
    if Enabled(w, Create(p)) && Enabled(Next(w, Create(p)), Create(q)) {
      CreateSafe(w, p);
      CreateSafe(Next(w, Create(p)), q);
      SafeMeansOne(Next(Next(w, Create(p)), Create(q)), p, q);
    }
  }

  /** The first breach lets two requests past the guard. */
  lemma BreachLetsTwoPass(w: World, s: Step) returns (q: nat)
    requires Enabled(w, s) && !Exclusive(w, s)
    ensures s.Check? && BothPassed(Next(w, s), s.request, q)
  {
    q :| q in w.requests && w.requests[q].Passed? && w.requests[q].job == w.requests[s.request].job;
  }

  /** A run keeps the guard exclusive if and only if in none of its states two requests execute one
      job or are two steps from it. */
  lemma ExclusiveIff(states: seq<World>, steps: seq<Step>)
    requires IsRun(states, steps)
    ensures (forall i :: 0 <= i < |steps| ==> Exclusive(states[i], steps[i])) <==>
      forall n, p, q :: 0 <= n < |states| ==> !BothWork(states[n], p, q) && !MayBothWork(states[n], p, q)
  {
    hide Exclusive, Safe, BothWork, BothPassed, MayBothWork, Enabled;
    if forall i :: 0 <= i < |steps| ==> Exclusive(states[i], steps[i]) {
      forall n, p, q | 0 <= n < |states| ensures !BothWork(states[n], p, q) && !MayBothWork(states[n], p, q) {
        AlwaysSafe(states, steps, n);
        SafeMeansOne(states[n], p, q);
        SafeStaysOne(states[n], p, q);
      }
    }
    if i :| 0 <= i < |steps| && !Exclusive(states[i], steps[i]) {
      var q := BreachLetsTwoPass(states[i], steps[i]);
      TwoPastTheGuard(states[i + 1], steps[i].request, q);
    }
  }

  // ----- a run that nobody will finish -----

  /** The request may still change its run's status. */
  predicate MayFinish(x: Request) { x.Working? || x.Failing? || (x.Closing? && x.success) }

  predicate IsRunning(w: World, j: nat, i: nat) {
    i < |RunsOf(w, j)| && RunsOf(w, j)[i] == Running
  }

  predicate Unowned(w: World, j: nat, i: nat) {
    forall r :: r in w.requests && w.requests[r].job == j && MayFinish(w.requests[r]) ==> w.requests[r].run != i
  }

  /** Run number `i` of the job is running, and no request will ever finish it. */
  predicate Orphan(w: World, j: nat, i: nat) {
    IsRunning(w, j, i) && Unowned(w, j, i)
  }

  /** Killing the backend, or failing to record the failure, leaves such a run. */
  lemma OrphanArises(w: World, s: Step)
    requires Safe(w) && Enabled(w, s)
    requires (s.BackendDies? && w.requests[s.request].Working?)
          || (s.RecordFailure? && !s.recorded && IsRunning(w, w.requests[s.request].job, w.requests[s.request].run))
    ensures Orphan(Next(w, s), w.requests[s.request].job, w.requests[s.request].run)
  {
  }

  /** While there is one, the guard refuses the job, and nobody executes it or is about to. */
  lemma OrphanIdle(w: World, j: nat, i: nat)
    requires Safe(w) && Orphan(w, j, i)
    ensures !Admits(w, j) && i == |RunsOf(w, j)| - 1
    ensures forall r :: r in w.requests && w.requests[r].job == j ==> !w.requests[r].Working? && !w.requests[r].Passed?
  {
    assert HasRunning(RunsOf(w, j));
    WindowIsEnough(RunsOf(w, j));
    hide Newest;
  }

  lemma OrphanStep(w: World, s: Step, j: nat, i: nat)
    requires Safe(w) && Orphan(w, j, i) && Enabled(w, s)
    ensures Orphan(Next(w, s), j, i) && |RunsOf(Next(w, s), j)| == |RunsOf(w, j)|
  {
    OrphanIdle(w, j, i);
    OrphanKeepsRunning(w, s, j, i);
    OrphanStaysUnowned(w, s, j, i);
    hide Next, IsRunning, Unowned, Safe;
  }

  lemma OrphanStaysUnowned(w: World, s: Step, j: nat, i: nat)
    requires Unowned(w, j, i) && Enabled(w, s)
    requires forall r :: r in w.requests && w.requests[r].job == j ==> !w.requests[r].Passed?
    ensures Unowned(Next(w, s), j, i)
  {
    hide Admits, Due, UpdateRow, SetRun, RunsOf, Lose, Unmarked;
  }

  lemma OrphanKeepsRunning(w: World, s: Step, j: nat, i: nat)
    requires Orphan(w, j, i) && Enabled(w, s)
    requires forall r :: r in w.requests && w.requests[r].job == j ==> !w.requests[r].Passed?
    ensures IsRunning(Next(w, s), j, i) && |RunsOf(Next(w, s), j)| == |RunsOf(w, j)|
  {
    hide Admits, Due, UpdateRow, Lose, Unmarked;
  }

  /** In every run with an exclusive guard such a run stays, and the job is never executed again. */
  lemma {:induction false} OrphanForever(states: seq<World>, steps: seq<Step>, m: nat, n: nat, j: nat, i: nat)
    requires IsRun(states, steps) && m <= n < |states| && Orphan(states[m], j, i)
    requires forall k :: 0 <= k < |steps| ==> Exclusive(states[k], steps[k])
    ensures Orphan(states[n], j, i) && |RunsOf(states[n], j)| == |RunsOf(states[m], j)| && !Admits(states[n], j)
    ensures forall r :: r in states[n].requests && states[n].requests[r].job == j ==>
      !states[n].requests[r].Working? && !states[n].requests[r].Passed?
  {
    hide Orphan, Admits, Safe, Enabled, Exclusive, RunsOf, Next;
    if m < n {
      OrphanForever(states, steps, m, n - 1, j, i);
      AlwaysSafe(states, steps, n - 1);
      OrphanStep(states[n - 1], steps[n - 1], j, i);
    }
    AlwaysSafe(states, steps, n);
    OrphanIdle(states[n], j, i);
  }

  // ----- a marked job is dispatched -----

  /** A scanner is about to dispatch the job, or a task for it has still to clear its flag. */
  predicate Held(w: World, j: nat) {
    || (exists p :: p in w.scanners && w.scanners[p].held == Some(j))
    || (exists t :: t in w.tasks && w.tasks[t].job == j)
  }

  predicate Marked(w: World, j: nat) { j in w.jobs && w.jobs[j].running }

  predicate FlagOk(w: World, j: nat) {
    && (Marked(w, j) ==> Held(w, j) || j in w.lost)
    && (j in w.lost ==> Marked(w, j))
  }

  lemma StillHeld(w: World, v: World, j: nat)
    requires Held(w, j)
    requires forall p :: p in w.scanners && w.scanners[p].held == Some(j) ==> p in v.scanners && v.scanners[p].held == Some(j)
    requires forall t :: t in w.tasks && w.tasks[t].job == j ==> t in v.tasks && v.tasks[t].job == j
    ensures Held(v, j)
  {
  }

  lemma MarkHolds(w: World, p: nat, j: nat)
    requires FlagOk(w, j) && j !in w.lost && Enabled(w, Mark(p)) && Marked(Next(w, Mark(p)), j)
    ensures Held(Next(w, Mark(p)), j)
  {
    var v := Next(w, Mark(p));
    if w.scanners[p].todo[0] == j {
      assert v.scanners[p].held == Some(j);
    } else {
      StillHeld(w, v, j);
    }
  }

  lemma DispatchHolds(w: World, p: nat, t: nat, j: nat)
    requires FlagOk(w, j) && j !in w.lost && Enabled(w, Dispatch(p, t)) && Marked(w, j)
    ensures Held(Next(w, Dispatch(p, t)), j)
  {
    var v := Next(w, Dispatch(p, t));
    if w.scanners[p].held.value == j {
      assert v.tasks[t].job == j;
    } else {
      StillHeld(w, v, j);
    }
  }

  lemma TaskHolds(w: World, s: Step, j: nat)
    requires !s.Mark? && !s.Dispatch? && !s.Select? && !s.DispatchFails?
    requires FlagOk(w, j) && Enabled(w, s) && Marked(Next(w, s), j) && j !in Next(w, s).lost
    ensures Held(Next(w, s), j)
  {
    WasMarked(w, s, j);
    ScannersKept(w, s);
    TasksKept(w, s, j);
    hide Held, Marked, Next, Enabled;
    StillHeld(w, Next(w, s), j);
  }

  lemma ScannersKept(w: World, s: Step)
    requires !s.Mark? && !s.Dispatch? && !s.Select? && !s.DispatchFails? && Enabled(w, s)
    ensures Next(w, s).scanners == w.scanners
  {
    hide Due, Admits, RunsOf, UpdateRow, SetRun, Unmarked, Lose;
  }

  lemma TasksKept(w: World, s: Step, j: nat)
    requires !s.Dispatch? && Enabled(w, s)
    requires s.TimeOut? || s.GetAnswer? || s.WorkerDies? ==> w.tasks[s.task].job == j ==> s.WorkerDies? && s.redelivered
    ensures forall t :: t in w.tasks && w.tasks[t].job == j ==> t in Next(w, s).tasks && Next(w, s).tasks[t].job == j
  {
    hide Due, Admits, RunsOf, UpdateRow, SetRun, Unmarked, Lose;
  }

  lemma WasMarked(w: World, s: Step, j: nat)
    requires !s.Mark? && Enabled(w, s) && Marked(Next(w, s), j) && j !in Next(w, s).lost
    ensures Marked(w, j) && j !in w.lost
    ensures s.TimeOut? || s.GetAnswer? || s.WorkerDies? ==> w.tasks[s.task].job == j ==> s.WorkerDies? && s.redelivered
  {
    hide Due, Admits, UpdateRow, SetRun, RunsOf;
  }

  lemma StepFlag(w: World, s: Step, j: nat)
    requires FlagOk(w, j) && Enabled(w, s)
    ensures FlagOk(Next(w, s), j)
  {
    hide Held, Due, Admits, AfterRun;
    var v := Next(w, s);
    if Marked(v, j) && j !in v.lost {
      match s
      case Mark(p) => MarkHolds(w, p, j);
      case Dispatch(p, t) => DispatchHolds(w, p, t, j);
      case Select(_, _, _) => StillHeld(w, v, j);
      case DispatchFails(_) => StillHeld(w, v, j);
      case _ => TaskHolds(w, s, j);
    }
    LostIsMarked(w, s, j);
  }

  lemma LostIsMarked(w: World, s: Step, j: nat)
    requires (j in w.lost ==> Marked(w, j)) && Enabled(w, s)
    ensures j in Next(w, s).lost ==> Marked(Next(w, s), j)
  {
    hide Due, Admits, UpdateRow, SetRun, RunsOf;
  }

  /** In every run, a job whose flag is set is about to be dispatched, or a task for it will still
      clear the flag, unless its dispatch failed or its worker was lost since the flag was last
      cleared. */
  lemma {:induction false} MarkedIsHeld(states: seq<World>, steps: seq<Step>, n: nat, j: nat)
    requires IsRun(states, steps) && n < |states|
    ensures FlagOk(states[n], j)
  {
    if n > 0 {
      MarkedIsHeld(states, steps, n - 1, j);
      StepFlag(states[n - 1], steps[n - 1], j);
    }
  }

  /** Nothing left anywhere that concerns the job, and its flag still set. */
  predicate Stuck(w: World, j: nat) {
    && Marked(w, j)
    && (forall p :: p in w.scanners ==> w.scanners[p].held != Some(j) && j !in w.scanners[p].todo)
    && (forall t :: t in w.tasks ==> w.tasks[t].job != j)
    && (forall r :: r in w.requests && w.requests[r].job == j ==> w.requests[r].Answered?)
  }

  /** A stuck job stays stuck: it is never selected, dispatched or executed again. */
  lemma StuckStep(w: World, s: Step, j: nat)
    requires Stuck(w, j) && Enabled(w, s)
    ensures Stuck(Next(w, s), j) && RunsOf(Next(w, s), j) == RunsOf(w, j)
  {
    hide AfterRun, Due, Admits;
    match s
    case Select(p, due, now) => StuckSelect(w, p, due, now, j);
    case Mark(p) => StuckMark(w, p, j);
    case _ =>
      StuckRows(w, s, j);
      StuckRequests(w, s, j);
      StuckWork(w, s, j);
  }

  /** So in every run it stays stuck from then on, and no run is ever added or changed. */
  lemma {:induction false} StuckForever(states: seq<World>, steps: seq<Step>, m: nat, n: nat, j: nat)
    requires IsRun(states, steps) && m <= n < |states| && Stuck(states[m], j)
    ensures Stuck(states[n], j) && RunsOf(states[n], j) == RunsOf(states[m], j)
  {
    if m < n {
      StuckForever(states, steps, m, n - 1, j);
      StuckStep(states[n - 1], steps[n - 1], j);
    }
  }

  lemma StuckSelect(w: World, p: nat, due: seq<nat>, now: int, j: nat)
    requires Stuck(w, j) && Enabled(w, Select(p, due, now))
    ensures Stuck(Next(w, Select(p, due, now)), j)
  {
  }

  lemma StuckMark(w: World, p: nat, j: nat)
    requires Stuck(w, j) && Enabled(w, Mark(p))
    ensures Stuck(Next(w, Mark(p)), j)
  {
  }

  lemma StuckRows(w: World, s: Step, j: nat)
    requires Stuck(w, j) && Enabled(w, s) && !s.Select? && !s.Mark?
    ensures Marked(Next(w, s), j) && RunsOf(Next(w, s), j) == RunsOf(w, j)
  {
    hide AfterRun, Due, Admits;
  }

  lemma StuckRequests(w: World, s: Step, j: nat)
    requires Stuck(w, j) && Enabled(w, s) && !s.Select? && !s.Mark?
    ensures var v := Next(w, s);
      forall r :: r in v.requests && v.requests[r].job == j ==> v.requests[r].Answered?
  {
    hide AfterRun, Due, Admits, Marked;
  }

  lemma StuckWork(w: World, s: Step, j: nat)
    requires Stuck(w, j) && Enabled(w, s) && !s.Select? && !s.Mark?
    ensures var v := Next(w, s);
      && (forall p :: p in v.scanners ==> v.scanners[p].held != Some(j) && j !in v.scanners[p].todo)
      && (forall t :: t in v.tasks ==> v.tasks[t].job != j)
  {
    hide AfterRun, Due, Admits;
  }

  // ----- retries -----

  /** How often a task has been posted since it was dispatched. */
  function Attempts(steps: seq<Step>, t: nat): nat {
    if steps == [] then 0
    else
      var before := Attempts(steps[..|steps| - 1], t);
      match steps[|steps| - 1]
      case Dispatch(_, u) => if u == t then 0 else before
      case Post(u, _) => if u == t then before + 1 else before
      case _ => before
  }

  /** A waiting task has used its attempts but those its retries leave. */
  predicate CountsDown(w: World, steps: seq<Step>, t: nat) {
    && Attempts(steps, t) <= 1 + MAX_RETRIES
    && (t in w.tasks ==>
          Attempts(steps, t) + w.tasks[t].retries == MAX_RETRIES + if w.tasks[t].Waiting? then 1 else 0)
  }

  lemma AttemptsSnoc(steps: seq<Step>, s: Step, t: nat)
    ensures Attempts(steps + [s], t) ==
      if s.Dispatch? && s.task == t then 0
      else Attempts(steps, t) + if s.Post? && s.task == t then 1 else 0
  {
    assert (steps + [s])[..|steps|] == steps;
  }

  lemma StepCounts(w: World, steps: seq<Step>, s: Step, t: nat)
    requires Enabled(w, s) && CountsDown(w, steps, t) && s != WorkerDies(t, true)
    ensures CountsDown(Next(w, s), steps + [s], t)
  {
    AttemptsSnoc(steps, s, t);
    hide Attempts, Admits, Due, UpdateRow, Lose, Unmarked, SetRun, RunsOf;
  }

  /** In every run a task that is not redelivered is posted at most four times. */
  lemma {:induction false} AtMostFourAttempts(states: seq<World>, steps: seq<Step>, n: nat, t: nat)
    requires IsRun(states, steps) && n <= |steps| && forall i :: 0 <= i < |steps| ==> steps[i] != WorkerDies(t, true)
    ensures CountsDown(states[n], steps[..n], t) && Attempts(steps[..n], t) <= 4
  {
    if n > 0 {
      AtMostFourAttempts(states, steps, n - 1, t);
      StepCounts(states[n - 1], steps[..n - 1], steps[n - 1], t);
      assert steps[..n - 1] + [steps[n - 1]] == steps[..n];
    }
  }

  // ----- what happens without the two conditions -----

  const ROW := Job(true, false, false, 0, 0, false, 0, 0)

  /** A step that is possible in `w`. */
  lemma Extend(states: seq<World>, steps: seq<Step>, s: Step) returns (more: seq<World>, w: World)
    requires IsRun(states, steps) && Enabled(states[|steps|], s)
    ensures w == Next(states[|steps|], s) && more == states + [w] && IsRun(more, steps + [s])
  {
    w := Next(states[|steps|], s);
    more := states + [w];
  }

  /** When `delay` raises after the flag was committed, the job is stuck. */
  lemma FailedDispatchSticks() returns (states: seq<World>, steps: seq<Step>)
    ensures IsRun(states, steps) && Stuck(states[|steps|], 1)
  {
    var w: World;
    states, steps := [START], [];
    states, w := Extend(states, steps, AddJob(1, ROW));
    steps := steps + [AddJob(1, ROW)];
    states, w := Extend(states, steps, Select(1, [1], 0));
    steps := steps + [Select(1, [1], 0)];
    states, w := Extend(states, steps, Mark(1));
    steps := steps + [Mark(1)];
    states, w := Extend(states, steps, DispatchFails(1));
    steps := steps + [DispatchFails(1)];
  }

  /** Two requests that both pass the guard before either creates its run execute the job at the
      same time: two scans that overlap dispatch it twice. */
  lemma SharedGuardRunsTwice() returns (states: seq<World>, steps: seq<Step>)
    ensures IsRun(states, steps)
    ensures var w := states[|steps|];
      1 in w.requests && 2 in w.requests && w.requests[1] == Working(1, 0) && w.requests[2] == Working(1, 1)
  {
    states, steps := TwoRequests();
    var w: World;
    states, w := Extend(states, steps, Check(1));
    steps := steps + [Check(1)];
    states, w := Extend(states, steps, Check(2));
    steps := steps + [Check(2)];
    assert w.requests[1] == Passed(1) && w.requests[2] == Passed(1);
    states, w := Extend(states, steps, Create(1));
    steps := steps + [Create(1)];
    states, w := Extend(states, steps, Create(2));
    steps := steps + [Create(2)];
  }

  lemma TwoRequests() returns (states: seq<World>, steps: seq<Step>)
    ensures IsRun(states, steps)
    ensures var w := states[|steps|];
      && 1 in w.jobs && w.jobs[1] == ROW.(running := true) && RunsOf(w, 1) == []
      && 1 in w.requests && w.requests[1] == Received(1) && 2 in w.requests && w.requests[2] == Received(1)
  {
    var w: World;
    states, steps := TwoScans();
    states, w := Extend(states, steps, Mark(1));
    steps := steps + [Mark(1)];
    states, w := Extend(states, steps, Mark(2));
    steps := steps + [Mark(2)];
    states, w := Extend(states, steps, Dispatch(1, 1));
    steps := steps + [Dispatch(1, 1)];
    states, w := Extend(states, steps, Dispatch(2, 2));
    steps := steps + [Dispatch(2, 2)];
    states, w := Extend(states, steps, Post(1, 1));
    steps := steps + [Post(1, 1)];
    states, w := Extend(states, steps, Post(2, 2));
    steps := steps + [Post(2, 2)];
  }

  lemma TwoScans() returns (states: seq<World>, steps: seq<Step>)
    ensures IsRun(states, steps)
    ensures states[|steps|] == START.(jobs := map[1 := ROW], scanners := map[1 := Scanner([1], None), 2 := Scanner([1], None)])
  {
    var w: World;
    states, steps := [START], [];
    states, w := Extend(states, steps, AddJob(1, ROW));
    steps := steps + [AddJob(1, ROW)];
    states, w := Extend(states, steps, Select(1, [1], 0));
    steps := steps + [Select(1, [1], 0)];
    states, w := Extend(states, steps, Select(2, [1], 0));
    steps := steps + [Select(2, [1], 0)];
  }
}
