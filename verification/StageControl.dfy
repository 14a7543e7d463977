// app/execution_control.py over app/executions.py and app/jobs.py: the bounded stage runs
// of the execution attempts, their jobs, leases, cancellation and reconciliation. A stage
// version's record hash is its place in its attempt, so "chains from" is "follows". What
// the code writes only where a row or a version is still as it expects is one step; what
// it reads and later writes by id is two.
module StageControl {
  import opened Prelude
  import opened Jobs

  datatype Stage = Explore | Implement | Verify
  datatype Status = Pending | Started | Done | Broken | Stopped | Late   // pending, running, succeeded, failed, cancelled, timed_out

  // The idempotency keys of stage versions: those made from a run and a status, and
  // those a caller brings.
  datatype VersionKey = RunKey(run: nat, status: Status) | ReconcileKey(run: nat, status: Status) | CallerKey(text: string)

  datatype Version = Version(
    stage: Stage, status: Status, reason: string, spec: Option<nat>, result: Option<nat>, key: VersionKey)

  datatype Job = Job(state: JobState, owner: Option<nat>, expires: int, cancelRequested: bool, attempts: nat)

  // A run and its job; pending is the place of the pending version it was scheduled for.
  datatype Run = Run(
    attempt: nat, pending: nat, stage: Stage, number: nat, max: nat, spec: nat, key: string, job: Job)

  datatype Db = Db(attempts: seq<seq<Version>>, runs: seq<Run>)

  // The job of a run as a session has read it.
  datatype Held = Held(run: nat, job: Job)

  // held are the rows that sessions have read, and may be about to write.
  datatype State = State(db: Db, held: map<nat, Held>)

  datatype StageError = NotFound | Invalid | Conflict | Exhausted

  const MAX_STAGE_RUNS := 3
  const MAX_JOB_ATTEMPTS := 1

  // ---------- Reading the rows ----------

  predicate Final(s: Status) {
    s == Done || s == Broken || s == Stopped || s == Late
  }

  predicate Lost(s: Status) {
    s == Broken || s == Stopped || s == Late
  }

  function Last(v: seq<Version>): Version
    requires v != []
  {
    v[|v| - 1]
  }

  predicate SameStage(run: Run, attempt: nat, stage: Stage) {
    run.attempt == attempt && run.stage == stage
  }

  // The latest of the first n runs of a stage.
  function LastRun(runs: seq<Run>, attempt: nat, stage: Stage, n: nat): (r: Option<nat>)
    requires n <= |runs|
    ensures r.Some? ==> r.value < n && SameStage(runs[r.value], attempt, stage)
    ensures forall k | (if r.Some? then r.value + 1 else 0) <= k < n :: !SameStage(runs[k], attempt, stage)
  {
    if n == 0 then None
    else if SameStage(runs[n - 1], attempt, stage) then Some(n - 1)
    else LastRun(runs, attempt, stage, n - 1)
  }

  function FindKey(runs: seq<Run>, key: string, from: nat): (r: Option<nat>)
    requires from <= |runs|
    ensures r.Some? ==> r.value < |runs| && runs[r.value].key == key
    decreases |runs| - from
  {
    if from == |runs| then None else if runs[from].key == key then Some(from) else FindKey(runs, key, from + 1)
  }

  predicate PendingTaken(runs: seq<Run>, attempt: nat, pending: nat) {
    exists r | 0 <= r < |runs| :: runs[r].attempt == attempt && runs[r].pending == pending
  }

  predicate VersionKeyUsed(attempts: seq<seq<Version>>, key: VersionKey) {
    exists a, i | 0 <= a < |attempts| && 0 <= i < |attempts[a]| :: attempts[a][i].key == key
  }

  predicate HasNumber(runs: seq<Run>, attempt: nat, stage: Stage, number: nat, max: nat) {
    exists r | 0 <= r < |runs| :: SameStage(runs[r], attempt, stage) && runs[r].number == number && runs[r].max == max
  }

  // get_verified: the run against its pending version and against the runs before it.
  predicate Verified(db: Db, r: nat) {
    r < |db.runs| &&
    var run := db.runs[r];
    1 <= run.number <= run.max <= MAX_STAGE_RUNS
    && run.attempt < |db.attempts| && run.pending < |db.attempts[run.attempt]|
    && db.attempts[run.attempt][run.pending].status == Pending
    && db.attempts[run.attempt][run.pending].stage == run.stage
    && forall k | 1 <= k <= run.number :: HasNumber(db.runs, run.attempt, run.stage, k, run.max)
  }

  // The version that a run's pending version led to, started or not.
  function Outcome(v: seq<Version>, p: nat): Option<Version> {
    if p + 1 < |v| && Final(v[p + 1].status) then Some(v[p + 1])
    else if p + 2 < |v| && v[p + 1].status == Started && Final(v[p + 2].status) then Some(v[p + 2])
    else None
  }

  // The current version is the run's own pending version, or the running one after it.
  predicate Owns(v: seq<Version>, p: nat) {
    (|v| == p + 1 && v[p].status == Pending) || (|v| == p + 2 && v[p + 1].status == Started)
  }

  // ---------- Changing the rows ----------

  function WithRun(db: Db, r: nat, run: Run): Db
    requires r < |db.runs|
  {
    db.(runs := db.runs[r := run])
  }

  function WithJob(db: Db, r: nat, job: Job): Db
    requires r < |db.runs|
  {
    WithRun(db, r, db.runs[r].(job := job))
  }

  function Ended(job: Job, state: JobState): Job {
    job.(state := state, owner := None)
  }

  function Appended(db: Db, a: nat, version: Version): Db
    requires a < |db.attempts|
  {
    db.(attempts := db.attempts[a := db.attempts[a] + [version]])
  }

  // finish_stage. A key met before belongs to other inputs: the replayed version would
  // have to follow the current one.
  function FinishStage(db: Db, a: nat, target: Status, reason: string, result: Option<nat>, key: VersionKey): Result<Db, StageError> {
    if a >= |db.attempts| || db.attempts[a] == [] then Err(NotFound)
    else if VersionKeyUsed(db.attempts, key) then Err(Conflict)
    else
      var current := Last(db.attempts[a]);
      if !(current.status == Started || (current.status == Pending && Lost(target))) then Err(Conflict)
      else Ok(Appended(db, a, Version(current.stage, target, reason, current.spec, result, key)))
  }

  // advance_stage.
  function AdvanceStage(db: Db, a: nat, key: string, inputsOk: bool): Result<Db, StageError> {
    if a >= |db.attempts| || db.attempts[a] == [] then Err(NotFound)
    else if VersionKeyUsed(db.attempts, CallerKey(key)) then Err(Conflict)
    else
      var current := Last(db.attempts[a]);
      if current.status != Done || current.stage == Verify || !inputsOk then Err(Conflict)
      else
        var next := if current.stage == Explore then Implement else Verify;
        Ok(Appended(db, a, Version(next, Pending, "advanced", None, None, CallerKey(key))))
  }

  // retry_stage, and retry_verification_environment when restored.
  function RetryStage(db: Db, a: nat, key: string, restored: bool): Result<Db, StageError> {
    if a >= |db.attempts| || db.attempts[a] == [] then Err(NotFound)
    else if VersionKeyUsed(db.attempts, CallerKey(key)) then Err(Conflict)
    else
      var current := Last(db.attempts[a]);
      if restored && (current.stage != Verify || current.status != Broken) then Err(Conflict)
      else if current.status != Broken && current.status != Late then Err(Conflict)
      else
        var reason := if restored then "dependency_environment_restored" else "retry_scheduled";
        Ok(Appended(db, a, Version(current.stage, Pending, reason, None, None, CallerKey(key))))
  }

  function NewAttempt(db: Db, key: string): Result<Db, StageError> {
    if VersionKeyUsed(db.attempts, CallerKey(key)) then Err(Conflict)
    else Ok(db.(attempts := db.attempts + [[Version(Explore, Pending, "execution_started", None, None, CallerKey(key))]]))
  }

  // ---------- schedule_current ----------

  function Schedule(db: Db, a: nat, spec: nat, specOk: bool, key: string, max: int): Result<(Db, nat), StageError> {
    if !(1 <= max <= MAX_STAGE_RUNS) then Err(Invalid)
    else if a >= |db.attempts| || db.attempts[a] == [] then Err(NotFound)
    else
      var replay := FindKey(db.runs, key, 0);
      if replay.Some? then
        var run := db.runs[replay.value];
        if run.attempt != a || run.spec != spec || run.max != max || !Verified(db, replay.value) then Err(Conflict)
        else Ok((db, replay.value))
      else
        var p := |db.attempts[a]| - 1;
        var pending := db.attempts[a][p];
        if pending.status != Pending || !specOk then Err(Conflict)
        else
          var prior := LastRun(db.runs, a, pending.stage, |db.runs|);
          if prior.Some? && !(Verified(db, prior.value) && db.runs[prior.value].max == max
             && (db.runs[prior.value].job.state == Failed || db.runs[prior.value].job.state == TimedOut)) then Err(Conflict)
          else
            var number := if prior.Some? then db.runs[prior.value].number + 1 else 1;
            if number > max then Err(Exhausted)
            else if PendingTaken(db.runs, a, p) then Err(Conflict)
            else Ok((db.(runs := db.runs + [Run(a, p, pending.stage, number, max, spec, key, Job(Queued, None, 0, false, 0))]), |db.runs|))
  }

  // ---------- Leases ----------

  predicate Expired(job: Job, now: int) {
    (job.state == Leased || job.state == Running) && job.expires <= now
  }

  // recover_expired, request_cancel and retry change the columns of a row that they have
  // read, and write those by its id: h is the row as it was read, job as it is by then.
  function Expiring(job: Job, h: Job, now: int): Job {
    if !Expired(h, now) then job
    else Ended(job, Reaped(h.cancelRequested, h.attempts, MAX_JOB_ATTEMPTS))
  }

  function Cancelling(job: Job, h: Job): Job {
    if h.state == Queued then job.(state := Cancelled, cancelRequested := true)
    else if UnderWay(h.state) && !h.cancelRequested then job.(cancelRequested := true)
    else job
  }

  function Retrying(job: Job, h: Job): Job {
    if !Dead(h.state) || h.attempts >= MAX_JOB_ATTEMPTS then job
    else job.(state := Queued, owner := if h.owner.Some? then None else job.owner,
              cancelRequested := job.cancelRequested && !h.cancelRequested)
  }

  function WriteExpired(db: Db, h: Held, now: int): Db
    requires h.run < |db.runs|
  {
    WithJob(db, h.run, Expiring(db.runs[h.run].job, h.job, now))
  }

  // The rows that recover_expired selects.
  function ExpiredRows(db: Db, now: int, n: nat): (rows: seq<Held>)
    requires n <= |db.runs|
    ensures forall i | 0 <= i < |rows| :: rows[i].run < n && rows[i].job == db.runs[rows[i].run].job && Expired(rows[i].job, now)
  {
    if n == 0 then []
    else ExpiredRows(db, now, n - 1) + if Expired(db.runs[n - 1].job, now) then [Held(n - 1, db.runs[n - 1].job)] else []
  }

  predicate RowsOf(db: Db, rows: seq<Held>) {
    forall i | 0 <= i < |rows| :: rows[i].run < |db.runs|
  }

  function WrittenBack(db: Db, rows: seq<Held>, now: int): Db
    requires RowsOf(db, rows)
    decreases |rows|
  {
    if rows == [] then db
    else
      assert rows[0].run < |db.runs|;
      WrittenBack(WriteExpired(db, rows[0], now), rows[1..], now)
  }

  // What recover_expired comes to when nothing is written between its reading and its
  // writing.
  function Recovered(db: Db, now: int): Db {
    db.(runs := seq(|db.runs|, r requires 0 <= r < |db.runs| => RecoveredRun(db.runs[r], now)))
  }

  function RecoveredRun(run: Run, now: int): Run {
    run.(job := Expiring(run.job, run.job, now))
  }

  // What the query of reconcile_expired selects.
  predicate Stranded(db: Db, r: nat) {
    r < |db.runs| && Dead(db.runs[r].job.state) &&
    var a := db.runs[r].attempt;
    a < |db.attempts| && db.attempts[a] != [] &&
    var n := |db.attempts[a]|;
    (Last(db.attempts[a]).status == Pending || Last(db.attempts[a]).status == Started)
    && (db.runs[r].pending == n - 1 || db.runs[r].pending == n - 2)
  }

  // The runs whose lease was just found expired, then the other stranded ones.
  function ExpiredRuns(db: Db, now: int, n: nat): (list: seq<nat>)
    requires n <= |db.runs|
    ensures forall r: nat :: r in list <==> r < n && Expired(db.runs[r].job, now)
  {
    if n == 0 then []
    else ExpiredRuns(db, now, n - 1) + if Expired(db.runs[n - 1].job, now) then [n - 1] else []
  }

  function Chosen(flags: seq<bool>, n: nat): (list: seq<nat>)
    requires n <= |flags|
    ensures forall r: nat :: r in list <==> r < n && flags[r]
  {
    if n == 0 then [] else Chosen(flags, n - 1) + if flags[n - 1] then [n - 1] else []
  }

  function StrandedRuns(db: Db, known: seq<nat>, n: nat): (list: seq<nat>)
    requires n <= |db.runs|
    ensures forall r: nat :: r in list <==> r < n && Stranded(db, r) && r !in known
  {
    Chosen(seq(n, r requires 0 <= r < n => Stranded(db, r) && r !in known), n)
  }

  function ToReconcile(db: Db, now: int): seq<nat> {
    var expired := ExpiredRuns(db, now, |db.runs|);
    expired + StrandedRuns(Recovered(db, now), expired, |db.runs|)
  }

  function LossStatus(s: JobState): Option<(Status, string)> {
    match s
    case Cancelled => Some((Stopped, "cancelled_after_worker_loss"))
    case TimedOut => Some((Late, "worker_lease_expired"))
    case Failed => Some((Broken, "worker_failed"))
    case _ => None
  }

  // _reconcile_terminal, of a run whose job was read in this state. The version that it
  // appends must follow the one that is current by then.
  function SettleAs(db: Db, r: nat, state: JobState): Result<Db, StageError> {
    if !Verified(db, r) then Err(Conflict)
    else
      var run := db.runs[r];
      var v := db.attempts[run.attempt];
      match LossStatus(state)
      case None => Ok(db)
      case Some((target, reason)) =>
        if Lost(Last(v).status) && Last(v).stage == run.stage then Ok(db)
        else if !(run.pending == |v| - 1 || (Last(v).stage == run.stage && Last(v).status == Started && run.pending == |v| - 2)) then Err(Conflict)
        else FinishStage(db, run.attempt, target, reason, None, ReconcileKey(r, target))
  }

  function ReconcileOne(db: Db, r: nat): Result<Db, StageError> {
    if r >= |db.runs| then Err(Conflict) else SettleAs(db, r, db.runs[r].job.state)
  }

  function ReconcileList(db: Db, list: seq<nat>): Result<Db, StageError>
    decreases |list|
  {
    if list == [] then Ok(db)
    else
      var next :- ReconcileOne(db, list[0]);
      ReconcileList(next, list[1..])
  }

  lemma ListStep(db: Db, ids: seq<nat>, i: nat)
    requires i < |ids|
    ensures match ReconcileOne(db, ids[i])
      case Ok(next) => ReconcileList(db, ids[i..]) == ReconcileList(next, ids[i + 1..])
      case Err(e) => ReconcileList(db, ids[i..]) == Err(e)
  {
    assert ids[i..][0] == ids[i] && ids[i..][1..] == ids[i + 1..];
  }

  // reconcile_expired, when nothing else is written until it is done.
  function Reconcile(db: Db, now: int): Result<Db, StageError> {
    ReconcileList(Recovered(db, now), ToReconcile(db, now))
  }

  // The job that lease_next takes once it has reconciled, if it is still queued then;
  // chosen stands for the query's order.
  function Grant(db: Db, w: nat, expires: int, chosen: nat): Db {
    if chosen >= |db.runs| || db.runs[chosen].job.state != Queued || db.runs[chosen].job.cancelRequested then db
    else
      var job := db.runs[chosen].job;
      WithJob(db, chosen, job.(state := Leased, owner := Some(w), expires := expires, attempts := job.attempts + 1))
  }

  function Heartbeat(db: Db, r: nat, w: nat, now: int, seconds: nat): Result<Db, StageError> {
    if !Verified(db, r) then Err(NotFound)
    else
      var job := db.runs[r].job;
      if (job.state != Leased && job.state != Running) || job.owner != Some(w) || job.expires <= now then Err(Conflict)
      else Ok(WithJob(db, r, job.(expires := now + seconds)))
  }

  // ---------- begin ----------

  function Begin(db: Db, r: nat, w: nat, spec: nat, inputsOk: bool, now: int): Result<Db, StageError> {
    if !Verified(db, r) then Err(NotFound)
    else
      var run := db.runs[r];
      var v := db.attempts[run.attempt];
      if run.job.state == Running && run.job.owner == Some(w) && Last(v).status == Started
         && run.pending == |v| - 2 && Last(v).spec == Some(run.spec) then Ok(db)
      else if run.job.state != Leased || run.pending != |v| - 1 || spec != run.spec then Err(Conflict)
      else if run.job.owner != Some(w) || run.job.expires <= now then Err(Conflict)
      else if VersionKeyUsed(db.attempts, RunKey(r, Started)) || !inputsOk then Err(Conflict)
      else
        Ok(Appended(WithJob(db, r, run.job.(state := Running)), run.attempt,
                    Version(run.stage, Started, "stage_started", Some(spec), None, RunKey(r, Started))))
  }

  // ---------- request_cancel ----------

  // Of a run whose job was read as h.
  function RequestCancel(db: Db, r: nat, h: Job): Result<Db, StageError> {
    if !Verified(db, r) then Err(NotFound)
    else if Terminal(h.state) then SettleAs(db, r, h.state)
    else
      var run := db.runs[r];
      var requested := WithJob(db, r, Cancelling(run.job, h));
      if h.state != Queued then Ok(requested)
      else if run.pending != |db.attempts[run.attempt]| - 1 then Err(Conflict)
      else FinishStage(requested, run.attempt, Stopped, "cancellation_requested", None, RunKey(r, Stopped))
  }

  // ---------- complete ----------

  // What complete() answers: the stage version it stands for, by place.
  function Complete(db: Db, r: nat, w: nat, target: Status, reason: string, result: Option<nat>, bundleOk: bool, now: int)
    : Result<(Db, nat), StageError>
  {
    if !Final(target) || !Verified(db, r) then Err(Conflict)
    else
      var run := db.runs[r];
      var v := db.attempts[run.attempt];
      var current := Last(v);
      if Terminal(run.job.state) then
        if current.stage == run.stage && current.status == target && current.reason == reason && current.result == result
           && (target == Done ==> bundleOk)
        then Ok((db, |v| - 1)) else Err(Conflict)
      else if run.job.state != Running || run.job.owner != Some(w) || current.status != Started || run.pending != |v| - 2 then Err(Conflict)
      else if target == Done && (result.None? || run.job.cancelRequested || !bundleOk || run.job.expires <= now) then Err(Conflict)
      else
        var ended := WithJob(db, r, Ended(run.job, JobEnd(target)));
        var finished :- FinishStage(ended, run.attempt, target, reason, result, RunKey(r, target));
        Ok((finished, |v|))
  }

  function JobEnd(target: Status): JobState {
    match target
    case Done => Succeeded
    case Broken => Failed
    case Late => TimedOut
    case _ => Cancelled
  }

  // ---------- prepare_retry ----------

  function FindVersion(v: seq<Version>, key: VersionKey, from: nat): (r: Option<nat>)
    requires from <= |v|
    ensures r.Some? ==> r.value < |v| && v[r.value].key == key
    decreases |v| - from
  {
    if from == |v| then None else if v[from].key == key then Some(from) else FindVersion(v, key, from + 1)
  }

  function PrepareRetry(db: Db, r: nat, key: string): Result<Db, StageError> {
    if !Verified(db, r) then Err(NotFound)
    else
      var run := db.runs[r];
      var v := db.attempts[run.attempt];
      if run.number >= run.max then Err(Exhausted)
      else if run.job.state != Failed && run.job.state != TimedOut then Err(Conflict)
      else if Last(v).stage != run.stage || (Last(v).status != Broken && Last(v).status != Late) then
        var replay := FindVersion(v, CallerKey(key), 0);
        if replay.Some? && v[replay.value].stage == run.stage && v[replay.value].status == Pending then Ok(db) else Err(Conflict)
      else RetryStage(db, run.attempt, key, false)
  }

  // ---------- The generic job operations that reach stage jobs ----------

  // The worker gives up a job it has only leased.
  function FailLeased(db: Db, r: nat, w: nat): Result<Db, StageError> {
    if r >= |db.runs| then Err(NotFound)
    else
      var job := db.runs[r].job;
      if job.state != Leased || job.owner != Some(w) then Err(Conflict)
      else Ok(WithJob(db, r, Ended(job, Failed)))
  }

  // ---------- Runs of the whole ----------

  datatype Step =
    | StartAttempt(attemptKey: string)
    | DoSchedule(attempt: nat, spec: nat, specOk: bool, key: string, max: int)
    | DoLease(worker: nat, expires: int, chosen: nat)
    | DoHeartbeat(run: nat, worker: nat, now: int, seconds: nat)
    | DoBegin(run: nat, worker: nat, spec: nat, inputsOk: bool, now: int)
    | DoComplete(run: nat, worker: nat, target: Status, reason: string, result: Option<nat>, bundleOk: bool, now: int)
    | DoRetry(run: nat, retryKey: string)
    | DoAdvance(attempt: nat, advanceKey: string, inputsOk: bool)
    | DoRestore(attempt: nat, restoreKey: string)
    | JobFail(run: nat, worker: nat)
    | ReadRow(session: nat, row: nat)
    | Expire(session: nat, now: int)     // recover_expired writes a row that it has read
    | Cancel(session: nat)               // the generic request_cancel does
    | Retry(session: nat)                // the generic retry does
    | CancelRun(session: nat)            // request_cancel of a stage run
    | Settle(session: nat)               // _reconcile_terminal

  predicate OfSession(step: Step) {
    step.Expire? || step.Cancel? || step.Retry? || step.CancelRun? || step.Settle?
  }

  function Kept(db: Db, r: Result<Db, StageError>): Db {
    match r case Ok(next) => next case Err(_) => db
  }

  function KeptPair(db: Db, r: Result<(Db, nat), StageError>): Db {
    match r case Ok(p) => p.0 case Err(_) => db
  }

  function NextDb(db: Db, step: Step): Db {
    match step
    case StartAttempt(key) => Kept(db, NewAttempt(db, key))
    case DoSchedule(a, spec, specOk, key, max) => KeptPair(db, Schedule(db, a, spec, specOk, key, max))
    case DoLease(w, expires, chosen) => Grant(db, w, expires, chosen)
    case DoHeartbeat(r, w, now, seconds) => Kept(db, Heartbeat(db, r, w, now, seconds))
    case DoBegin(r, w, spec, inputsOk, now) => Kept(db, Begin(db, r, w, spec, inputsOk, now))
    case DoComplete(r, w, target, reason, result, bundleOk, now) => KeptPair(db, Complete(db, r, w, target, reason, result, bundleOk, now))
    case DoRetry(r, key) => Kept(db, PrepareRetry(db, r, key))
    case DoAdvance(a, key, inputsOk) => Kept(db, AdvanceStage(db, a, key, inputsOk))
    case DoRestore(a, key) => Kept(db, RetryStage(db, a, key, true))
    case JobFail(r, w) => Kept(db, FailLeased(db, r, w))
    case _ => db
  }

  // A session that has read a row comes to write.
  function Writes(db: Db, h: Held, step: Step): Db {
    if h.run >= |db.runs| then db
    else
      var job := db.runs[h.run].job;
      match step
      case Expire(_, now) => WriteExpired(db, h, now)
      case Cancel(_) => WithJob(db, h.run, Cancelling(job, h.job))
      case Retry(_) => WithJob(db, h.run, Retrying(job, h.job))
      case CancelRun(_) => Kept(db, RequestCancel(db, h.run, h.job))
      case Settle(_) => Kept(db, SettleAs(db, h.run, h.job.state))
      case _ => db
  }

  function Next(s: State, step: Step): State {
    if step.ReadRow? then
      if step.row < |s.db.runs| then s.(held := s.held[step.session := Held(step.row, s.db.runs[step.row].job)]) else s
    else if OfSession(step) then
      if step.session in s.held then State(Writes(s.db, s.held[step.session], step), s.held - {step.session}) else s
    else s.(db := NextDb(s.db, step))
  }

  function After(s: State, steps: seq<Step>): State
    decreases |steps|
  {
    if steps == [] then s else After(Next(s, steps[0]), steps[1..])
  }

  const EMPTY := State(Db([], []), map[])

  // ---------- Rows written back ----------

  function RunsOf(rows: seq<Held>): seq<nat> {
    seq(|rows|, i requires 0 <= i < |rows| => rows[i].run)
  }

  lemma RowStep(db: Db, rows: seq<Held>, i: nat, now: int)
    requires i < |rows| && RowsOf(db, rows)
    ensures WrittenBack(db, rows[i..], now) == WrittenBack(WriteExpired(db, rows[i], now), rows[i + 1..], now)
    ensures RunsOf(rows[..i + 1]) == RunsOf(rows[..i]) + [rows[i].run]
    ensures !Expired(rows[i].job, now) ==> WriteExpired(db, rows[i], now) == db
  {
    assert rows[i..][0] == rows[i] && rows[i..][1..] == rows[i + 1..];
    assert rows[i].run < |db.runs| && db.runs[rows[i].run := db.runs[rows[i].run]] == db.runs;
  }

  lemma {:induction false} WrittenLast(db: Db, rows: seq<Held>, row: Held, now: int)
    requires RowsOf(db, rows) && row.run < |db.runs|
    ensures RowsOf(db, rows + [row]) && |WrittenBack(db, rows, now).runs| == |db.runs|
    ensures WrittenBack(db, rows + [row], now) == WriteExpired(WrittenBack(db, rows, now), row, now)
    decreases |rows|
  {
    if rows == [] {
      assert rows + [row] == [row] && [row][1..] == [];
    } else {
      assert rows[0].run < |db.runs| && (rows + [row])[1..] == rows[1..] + [row];
      WrittenLast(WriteExpired(db, rows[0], now), rows[1..], row, now);
    }
  }

  // The first n runs recovered, and nothing else.
  predicate RecoveredTo(db: Db, next: Db, now: int, n: nat) {
    next.attempts == db.attempts && |next.runs| == |db.runs|
    && forall r | 0 <= r < |db.runs| :: next.runs[r] == if r < n then RecoveredRun(db.runs[r], now) else db.runs[r]
  }

  lemma RecoverNext(db: Db, next: Db, now: int, n: nat)
    requires n < |db.runs| && RecoveredTo(db, next, now, n)
    ensures RecoveredTo(db, WriteExpired(next, Held(n, db.runs[n].job), now), now, n + 1)
    ensures !Expired(db.runs[n].job, now) ==> RecoveredTo(db, next, now, n + 1)
  {
  }

  lemma {:induction false} AloneTo(db: Db, now: int, n: nat)
    requires n <= |db.runs|
    ensures RecoveredTo(db, WrittenBack(db, ExpiredRows(db, now, n), now), now, n)
  {
    if n > 0 {
      AloneTo(db, now, n - 1);
      var rows := ExpiredRows(db, now, n - 1);
      RecoverNext(db, WrittenBack(db, rows, now), now, n - 1);
      if Expired(db.runs[n - 1].job, now) {
        WrittenLast(db, rows, Held(n - 1, db.runs[n - 1].job), now);
      } else {
        assert ExpiredRows(db, now, n) == rows;
      }
    }
  }

  lemma {:induction false} RunsSelected(db: Db, now: int, n: nat)
    requires n <= |db.runs|
    ensures RunsOf(ExpiredRows(db, now, n)) == ExpiredRuns(db, now, n)
  {
    if n > 0 {
      RunsSelected(db, now, n - 1);
      var rows := ExpiredRows(db, now, n - 1);
      assert RunsOf(rows + [Held(n - 1, db.runs[n - 1].job)]) == RunsOf(rows) + [n - 1];
    }
  }

  // Written at once, the rows that were selected are the expired ones, each as it was.
  lemma AloneRows(db: Db, now: int)
    ensures var rows := ExpiredRows(db, now, |db.runs|);
      WrittenBack(db, rows, now) == Recovered(db, now) && RunsOf(rows) == ExpiredRuns(db, now, |db.runs|)
  {
    AloneTo(db, now, |db.runs|);
    RunsSelected(db, now, |db.runs|);
    assert WrittenBack(db, ExpiredRows(db, now, |db.runs|), now).runs == Recovered(db, now).runs;
  }

  // ---------- The service, as it moves the rows ----------

  class StageControlService {
    var db: Db

    constructor ()
      ensures db == EMPTY.db
    {
      db := EMPTY.db;
    }

    // recover_expired reads...
    method SelectExpired(now: int) returns (rows: seq<Held>)
      ensures rows == ExpiredRows(db, now, |db.runs|)
    {
      rows := [];
      for r := 0 to |db.runs|
        invariant rows == ExpiredRows(db, now, r)
      {
        var job := db.runs[r].job;
        if UnderWay(job.state) && job.expires <= now {
          rows := rows + [Held(r, job)];
        }
      }
    }

    // ... and writes what it has read, whatever the rows have become.
    method RecoverExpired(rows: seq<Held>, now: int) returns (recovered: seq<nat>)
      requires RowsOf(db, rows)
      modifies this
      ensures db == WrittenBack(old(db), rows, now) && recovered == RunsOf(rows)
    {
      recovered := [];
      ghost var before := db;
      for i := 0 to |rows|
        invariant RowsOf(db, rows) && recovered == RunsOf(rows[..i])
        invariant WrittenBack(before, rows, now) == WrittenBack(db, rows[i..], now)
      {
        RowStep(db, rows, i, now);
        var run := db.runs[rows[i].run];
        var row := rows[i].job;
        recovered := recovered + [rows[i].run];
        if UnderWay(row.state) && row.expires <= now {
          var state := TimedOut;
          if row.cancelRequested {
            state := Cancelled;
          } else if row.attempts < MAX_JOB_ATTEMPTS {
            state := Queued;
          }
          db := WithJob(db, rows[i].run, run.job.(state := state, owner := None));
        }
      }
      assert rows[..|rows|] == rows;
    }

    method SettleRuns(ids: seq<nat>) returns (failed: Option<StageError>)
      modifies this
      ensures match ReconcileList(old(db), ids)
        case Ok(next) => failed == None && db == next
        case Err(e) => failed == Some(e)
    {
      ghost var whole := ReconcileList(db, ids);
      for i := 0 to |ids|
        invariant whole == ReconcileList(db, ids[i..])
      {
        ListStep(db, ids, i);
        var settled := ReconcileOne(db, ids[i]);
        if settled.Err? {
          return Some(settled.error);
        }
        db := settled.value;
      }
      return None;
    }

    // reconcile_expired with nothing written by others until it is done.
    method ReconcileAlone(now: int) returns (r: Result<seq<nat>, StageError>)
      modifies this
      ensures match Reconcile(old(db), now)
        case Ok(next) => r == Ok(ToReconcile(old(db), now)) && db == next
        case Err(e) => r == Err(e)
    {
      var rows := SelectExpired(now);
      AloneRows(db, now);
      var ids := RecoverExpired(rows, now);
      ids := ids + StrandedRuns(db, ids, |db.runs|);
      var failed := SettleRuns(ids);
      if failed.Some? {
        return Err(failed.value);
      }
      return Ok(ids);
    }

    method ScheduleCurrent(a: nat, spec: nat, specOk: bool, key: string, max: int) returns (r: Result<nat, StageError>)
      modifies this
      ensures match Schedule(old(db), a, spec, specOk, key, max)
        case Ok(p) => r == Ok(p.1) && db == p.0
        case Err(e) => r == Err(e) && db == old(db)
    {
      if max < 1 || max > MAX_STAGE_RUNS {
        return Err(Invalid);
      }
      if a >= |db.attempts| || db.attempts[a] == [] {
        return Err(NotFound);
      }
      var replay := FindKey(db.runs, key, 0);
      if replay.Some? {
        var known := db.runs[replay.value];
        if known.attempt != a || known.spec != spec || known.max != max || !Verified(db, replay.value) {
          return Err(Conflict);
        }
        return Ok(replay.value);
      }
      var p := |db.attempts[a]| - 1;
      var pending := db.attempts[a][p];
      if pending.status != Pending || !specOk {
        return Err(Conflict);
      }
      var number := 1;
      var prior := LastRun(db.runs, a, pending.stage, |db.runs|);
      if prior.Some? {
        var previous := db.runs[prior.value];
        if !Verified(db, prior.value) || previous.max != max {
          return Err(Conflict);
        }
        if previous.job.state != Failed && previous.job.state != TimedOut {
          return Err(Conflict);
        }
        number := previous.number + 1;
      }
      if number > max {
        return Err(Exhausted);
      }
      if PendingTaken(db.runs, a, p) {
        return Err(Conflict);
      }
      var run := Run(a, p, pending.stage, number, max, spec, key, Job(Queued, None, 0, false, 0));
      db := db.(runs := db.runs + [run]);
      return Ok(|db.runs| - 1);
    }

    method CompleteRun(r: nat, w: nat, target: Status, reason: string, result: Option<nat>, bundleOk: bool, now: int)
      returns (answer: Result<nat, StageError>)
      modifies this
      ensures match Complete(old(db), r, w, target, reason, result, bundleOk, now)
        case Ok(p) => answer == Ok(p.1) && db == p.0
        case Err(e) => answer == Err(e) && db == old(db)
    {
      if !Final(target) || !Verified(db, r) {
        return Err(Conflict);
      }
      var run := db.runs[r];
      var places := |db.attempts[run.attempt]|;
      var current := db.attempts[run.attempt][places - 1];
      if Terminal(run.job.state) {
        if current.stage == run.stage && current.status == target && current.reason == reason && current.result == result {
          if target == Done && !bundleOk {
            return Err(Conflict);
          }
          return Ok(places - 1);
        }
        return Err(Conflict);
      }
      if run.job.state != Running || run.job.owner != Some(w) || current.status != Started || run.pending != places - 2 {
        return Err(Conflict);
      }
      var before := db;
      if target == Done {
        if result.None? || run.job.cancelRequested || !bundleOk || run.job.expires <= now {
          return Err(Conflict);
        }
        db := WithJob(db, r, Ended(run.job, Succeeded));
      } else if target == Broken {
        db := WithJob(db, r, Ended(run.job, Failed));
      } else if target == Late {
        db := WithJob(db, r, Ended(run.job, TimedOut));
      } else {
        db := WithJob(db, r, Ended(run.job, Cancelled));
      }
      var finished := FinishStage(db, run.attempt, target, reason, result, RunKey(r, target));
      if finished.Err? {
        db := before;
        return Err(finished.error);
      }
      db := finished.value;
      return Ok(places);
    }

    method LeaseQueued(w: nat, expires: int, chosen: nat)
      modifies this
      ensures db == Grant(old(db), w, expires, chosen)
    {
      if chosen < |db.runs| && db.runs[chosen].job.state == Queued && !db.runs[chosen].job.cancelRequested {
        var job := db.runs[chosen].job;
        db := WithJob(db, chosen, job.(state := Leased, owner := Some(w), expires := expires, attempts := job.attempts + 1));
      }
    }

    method BeginRun(r: nat, w: nat, spec: nat, inputsOk: bool, now: int) returns (answer: Result<(), StageError>)
      modifies this
      ensures match Begin(old(db), r, w, spec, inputsOk, now)
        case Ok(next) => answer == Ok(()) && db == next
        case Err(e) => answer == Err(e) && db == old(db)
    {
      if !Verified(db, r) {
        return Err(NotFound);
      }
      var run := db.runs[r];
      var places := |db.attempts[run.attempt]|;
      var current := db.attempts[run.attempt][places - 1];
      if run.job.state == Running && run.job.owner == Some(w) && current.status == Started
         && run.pending == places - 2 && current.spec == Some(run.spec) {
        return Ok(());
      }
      if run.job.state != Leased || run.pending != places - 1 || spec != run.spec {
        return Err(Conflict);
      }
      if run.job.owner != Some(w) || run.job.expires <= now {
        return Err(Conflict);
      }
      if VersionKeyUsed(db.attempts, RunKey(r, Started)) || !inputsOk {
        return Err(Conflict);
      }
      db := WithJob(db, r, run.job.(state := Running));
      db := Appended(db, run.attempt, Version(run.stage, Started, "stage_started", Some(spec), None, RunKey(r, Started)));
      return Ok(());
    }

    method CancelRun(r: nat, row: Job) returns (answer: Result<(), StageError>)
      modifies this
      ensures match RequestCancel(old(db), r, row)
        case Ok(next) => answer == Ok(()) && db == next
        case Err(e) => answer == Err(e) && db == old(db)
    {
      if !Verified(db, r) {
        return Err(NotFound);
      }
      var run := db.runs[r];
      var next := SettleAs(db, r, row.state);
      if !Terminal(row.state) {
        var requested := WithJob(db, r, Cancelling(run.job, row));
        if row.state != Queued {
          next := Ok(requested);
        } else if run.pending != |db.attempts[run.attempt]| - 1 {
          next := Err(Conflict);
        } else {
          next := FinishStage(requested, run.attempt, Stopped, "cancellation_requested", None, RunKey(r, Stopped));
        }
      }
      if next.Err? {
        return Err(next.error);
      }
      db := next.value;
      return Ok(());
    }

    method RetryRun(r: nat, key: string) returns (answer: Result<(), StageError>)
      modifies this
      ensures match PrepareRetry(old(db), r, key)
        case Ok(next) => answer == Ok(()) && db == next
        case Err(e) => answer == Err(e) && db == old(db)
    {
      if !Verified(db, r) {
        return Err(NotFound);
      }
      var run := db.runs[r];
      var v := db.attempts[run.attempt];
      var current := Last(v);
      if run.number >= run.max {
        return Err(Exhausted);
      }
      if run.job.state != Failed && run.job.state != TimedOut {
        return Err(Conflict);
      }
      if current.stage != run.stage || (current.status != Broken && current.status != Late) {
        var replay := FindVersion(v, CallerKey(key), 0);
        if replay.Some? && v[replay.value].stage == run.stage && v[replay.value].status == Pending {
          return Ok(());
        }
        return Err(Conflict);
      }
      var retried := RetryStage(db, run.attempt, key, false);
      if retried.Err? {
        return Err(retried.error);
      }
      db := retried.value;
      return Ok(());
    }
  }
}
