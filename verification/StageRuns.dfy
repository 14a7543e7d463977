// What every reachable state of StageControl keeps, whatever sessions write over what they
// have read: the stage edges, the numbers and budgets of the runs, what a running and a
// succeeded job say of their stage, and that idempotency keys are those of their runs.
module StageRuns {
  import opened Prelude
  import opened Jobs
  import opened StageControl

  // ---------- The invariant ----------

  // A version that may follow another: stage and status edges of _validate_stage_edge.
  predicate EdgeOk(prev: Version, cur: Version) {
    match prev.status
    case Pending => cur.stage == prev.stage && (cur.status == Started || Lost(cur.status))
    case Started => cur.stage == prev.stage && Final(cur.status)
    case Done => cur.status == Pending && prev.stage != Verify && cur.stage == (if prev.stage == Explore then Implement else Verify)
    case Stopped => false
    case _ => cur.stage == prev.stage && cur.status == Pending
  }

  predicate HistoryOk(v: seq<Version>) {
    v != [] && v[0].status == Pending && v[0].stage == Explore
    && forall i | 0 < i < |v| :: EdgeOk(v[i - 1], v[i])
  }

  // The run's pending version was followed by a running one, with the run's specification.
  predicate Began(v: seq<Version>, run: Run) {
    run.pending + 1 < |v| && v[run.pending + 1].status == Started && v[run.pending + 1].spec == Some(run.spec)
  }

  predicate EndedDone(v: seq<Version>, p: nat) {
    Outcome(v, p).Some? && Outcome(v, p).value.status == Done && Outcome(v, p).value.result.Some?
  }

  // What the state of a job says of its stage, whoever has written it.
  predicate Sane(v: seq<Version>, run: Run) {
    run.pending < |v| && v[run.pending].status == Pending && v[run.pending].stage == run.stage
    && (LeasedOnce(run.job.state) ==> run.job.attempts >= 1)
    && (run.job.state == Running ==> Began(v, run))
    && (run.job.state == Succeeded ==> EndedDone(v, run.pending))
  }

  predicate LeasedOnce(state: JobState) {
    state != Queued && state != Cancelled
  }

  predicate RunOk(db: Db, r: nat)
    requires r < |db.runs|
  {
    var run := db.runs[r];
    run.attempt < |db.attempts| && Sane(db.attempts[run.attempt], run)
  }

  // The run is one more than the last before it, under the same budget.
  predicate NumberOk(runs: seq<Run>, r: nat)
    requires r < |runs|
  {
    var prior := LastRun(runs, runs[r].attempt, runs[r].stage, r);
    1 <= runs[r].number <= runs[r].max <= MAX_STAGE_RUNS
    && (if prior.Some?
        then runs[r].number == runs[prior.value].number + 1 && runs[r].max == runs[prior.value].max
        else runs[r].number == 1)
  }

  // Later runs of an attempt are for later pending versions.
  predicate Apart(runs: seq<Run>, r: nat, s: nat) {
    r < |runs| && s < |runs| && runs[r].attempt == runs[s].attempt ==>
      if r < s then runs[r].pending < runs[s].pending else runs[s].pending < runs[r].pending
  }

  // A running version was started by a run.
  predicate StartedBy(db: Db, a: nat, i: nat)
    requires a < |db.attempts| && i < |db.attempts[a]|
  {
    db.attempts[a][i].status == Started ==> 0 < i && PendingTaken(db.runs, a, i - 1)
  }

  // A key made from a run stands on the version that run's pending version led to.
  predicate KeyOk(db: Db, a: nat, i: nat)
    requires a < |db.attempts| && i < |db.attempts[a]|
  {
    match db.attempts[a][i].key
    case CallerKey(_) => db.attempts[a][i].status == Pending
    case RunKey(r, s) => MadeBy(db, a, i, r, s)
    case ReconcileKey(r, s) => MadeBy(db, a, i, r, s)
  }

  predicate MadeBy(db: Db, a: nat, i: nat, r: nat, s: Status)
    requires a < |db.attempts| && i < |db.attempts[a]|
  {
    r < |db.runs| && db.runs[r].attempt == a && db.runs[r].pending < i <= db.runs[r].pending + 2 && db.attempts[a][i].status == s
  }

  predicate HistoriesOk(db: Db) {
    && (forall a | 0 <= a < |db.attempts| :: HistoryOk(db.attempts[a]))
    && (forall a, i | 0 <= a < |db.attempts| && 0 <= i < |db.attempts[a]| :: StartedBy(db, a, i))
    && (forall a, i | 0 <= a < |db.attempts| && 0 <= i < |db.attempts[a]| :: KeyOk(db, a, i))
  }

  predicate RunsOk(db: Db) {
    && (forall r | 0 <= r < |db.runs| :: RunOk(db, r))
    && (forall r | 0 <= r < |db.runs| :: NumberOk(db.runs, r))
    && (forall r, s | 0 <= r < |db.runs| && 0 <= s < |db.runs| && r != s :: Apart(db.runs, r, s))
  }

  predicate DbOk(db: Db) {
    HistoriesOk(db) && RunsOk(db)
  }

  // A row that was read has not been leased less often since.
  predicate HeldOk(db: Db, h: Held) {
    h.run < |db.runs| && h.job.attempts <= db.runs[h.run].job.attempts && (LeasedOnce(h.job.state) ==> h.job.attempts >= 1)
  }

  predicate Inv(s: State) {
    DbOk(s.db) && forall n | n in s.held :: HeldOk(s.db, s.held[n])
  }

  // ---------- get_verified never refuses a run ----------

  lemma {:induction false} NumbersBelow(runs: seq<Run>, r: nat, k: nat)
    requires forall s | 0 <= s < |runs| :: NumberOk(runs, s)
    requires r < |runs| && 1 <= k <= runs[r].number
    ensures HasNumber(runs, runs[r].attempt, runs[r].stage, k, runs[r].max)
    decreases r
  {
    assert NumberOk(runs, r);
    if k == runs[r].number {
      assert SameStage(runs[r], runs[r].attempt, runs[r].stage);
    } else {
      var prior := LastRun(runs, runs[r].attempt, runs[r].stage, r).value;
      NumbersBelow(runs, prior, k);
    }
  }

  lemma AllVerified(db: Db, r: nat)
    requires DbOk(db) && r < |db.runs|
    ensures Verified(db, r)
  {
    assert RunOk(db, r) && NumberOk(db.runs, r);
    forall k | 1 <= k <= db.runs[r].number
      ensures HasNumber(db.runs, db.runs[r].attempt, db.runs[r].stage, k, db.runs[r].max)
    {
      NumbersBelow(db.runs, r, k);
    }
  }

  // Two runs of one attempt cannot both be at its end.
  lemma OneOwner(db: Db, r: nat, s: nat)
    requires DbOk(db) && r < |db.runs| && s < |db.runs| && db.runs[r].attempt == db.runs[s].attempt
    requires db.runs[r].attempt < |db.attempts| && Owns(db.attempts[db.runs[r].attempt], db.runs[r].pending)
    requires db.runs[s].pending + 2 >= |db.attempts[db.runs[r].attempt]|
    ensures r == s
  {
    assert RunOk(db, r) && RunOk(db, s);
    assert HistoryOk(db.attempts[db.runs[r].attempt]);
    assert r == s || Apart(db.runs, r, s);
  }

  // ---------- Only a job changes ----------

  lemma {:induction false} LastRunSame(runs: seq<Run>, more: seq<Run>, attempt: nat, stage: Stage, n: nat)
    requires n <= |runs| && n <= |more| && forall r | 0 <= r < n :: more[r] == runs[r].(job := more[r].job)
    ensures LastRun(more, attempt, stage, n) == LastRun(runs, attempt, stage, n)
  {
    if n > 0 {
      LastRunSame(runs, more, attempt, stage, n - 1);
    }
  }

  lemma NumbersSame(runs: seq<Run>, r: nat, job: StageControl.Job, s: nat)
    requires r < |runs| && s < |runs| && NumberOk(runs, s)
    ensures NumberOk(runs[r := runs[r].(job := job)], s)
  {
    LastRunSame(runs, runs[r := runs[r].(job := job)], runs[s].attempt, runs[s].stage, s);
  }

  lemma PendingSame(runs: seq<Run>, more: seq<Run>, a: nat, p: nat)
    requires |runs| <= |more| && forall r | 0 <= r < |runs| :: more[r] == runs[r].(job := more[r].job)
    requires PendingTaken(runs, a, p)
    ensures PendingTaken(more, a, p)
  {
    var r :| 0 <= r < |runs| && runs[r].attempt == a && runs[r].pending == p;
    assert more[r].attempt == a;
  }

  lemma JobChanged(db: Db, r: nat, job: StageControl.Job)
    requires DbOk(db) && r < |db.runs| && RunOk(WithJob(db, r, job), r)
    ensures DbOk(WithJob(db, r, job))
  {
    var next := WithJob(db, r, job);
    forall s | 0 <= s < |next.runs| ensures RunOk(next, s) && NumberOk(next.runs, s) {
      assert RunOk(db, s);
      NumbersSame(db.runs, r, job, s);
    }
    forall q, s | 0 <= q < |next.runs| && 0 <= s < |next.runs| && q != s ensures Apart(next.runs, q, s) {
      assert Apart(db.runs, q, s);
    }
    forall a, i | 0 <= a < |db.attempts| && 0 <= i < |db.attempts[a]|
      ensures StartedBy(next, a, i) && KeyOk(next, a, i)
    {
      assert StartedBy(db, a, i) && KeyOk(db, a, i);
      if db.attempts[a][i].status == Started {
        PendingSame(db.runs, next.runs, a, i - 1);
      }
    }
  }

  // ---------- A version is appended ----------

  lemma HistoryGrows(v: seq<Version>, e: Version)
    requires HistoryOk(v) && EdgeOk(Last(v), e)
    ensures HistoryOk(v + [e])
  {
  }

  lemma SaneGrows(v: seq<Version>, e: Version, run: Run)
    requires Sane(v, run)
    ensures Sane(v + [e], run)
  {
  }

  lemma VersionAppended(db: Db, a: nat, e: Version)
    requires DbOk(db) && a < |db.attempts| && EdgeOk(Last(db.attempts[a]), e)
    requires StartedBy(Appended(db, a, e), a, |db.attempts[a]|) && KeyOk(Appended(db, a, e), a, |db.attempts[a]|)
    ensures DbOk(Appended(db, a, e))
  {
    var next := Appended(db, a, e);
    HistoryGrows(db.attempts[a], e);
    forall b, i | 0 <= b < |next.attempts| && 0 <= i < |next.attempts[b]|
      ensures StartedBy(next, b, i) && KeyOk(next, b, i)
    {
      if i < |db.attempts[b]| {
        assert StartedBy(db, b, i) && KeyOk(db, b, i);
      }
    }
    forall r | 0 <= r < |next.runs| ensures RunOk(next, r) {
      assert RunOk(db, r);
      SaneGrows(db.attempts[db.runs[r].attempt], e, db.runs[r]);
    }
  }

  // The version of a run that owns the end of its attempt, and what becomes of its job.
  lemma OwnerAppends(db: Db, r: nat, job: StageControl.Job, e: Version)
    requires DbOk(db) && r < |db.runs| && db.runs[r].attempt < |db.attempts|
    requires Owns(db.attempts[db.runs[r].attempt], db.runs[r].pending)
    requires EdgeOk(Last(db.attempts[db.runs[r].attempt]), e)
    requires Sane(db.attempts[db.runs[r].attempt] + [e], db.runs[r].(job := job))
    requires e.status == Started ==> |db.attempts[db.runs[r].attempt]| == db.runs[r].pending + 1
    requires e.key == RunKey(r, e.status) || e.key == ReconcileKey(r, e.status)
    ensures DbOk(Appended(WithJob(db, r, job), db.runs[r].attempt, e))
  {
    var a := db.runs[r].attempt;
    assert RunOk(db, r);
    VersionAppended(db, a, e);
    JobChanged(Appended(db, a, e), r, job);
    assert WithJob(Appended(db, a, e), r, job) == Appended(WithJob(db, r, job), a, e);
  }

  // A key made from the owner of the end of an attempt has not been used.
  lemma OwnerKeyFree(db: Db, r: nat, key: VersionKey, s: Status)
    requires DbOk(db) && r < |db.runs| && db.runs[r].attempt < |db.attempts|
    requires Owns(db.attempts[db.runs[r].attempt], db.runs[r].pending)
    requires key == RunKey(r, s) || key == ReconcileKey(r, s)
    requires Final(s) || |db.attempts[db.runs[r].attempt]| == db.runs[r].pending + 1
    ensures !VersionKeyUsed(db.attempts, key)
  {
    forall a, i | 0 <= a < |db.attempts| && 0 <= i < |db.attempts[a]| ensures db.attempts[a][i].key != key {
      assert KeyOk(db, a, i);
    }
  }

  // ---------- A stage ends ----------

  // What finish_stage makes of the end of run r's attempt.
  function FinishVersion(db: Db, r: nat, target: Status, reason: string, result: Option<nat>, key: VersionKey): Version
    requires r < |db.runs| && db.runs[r].attempt < |db.attempts| && db.attempts[db.runs[r].attempt] != []
  {
    var current := Last(db.attempts[db.runs[r].attempt]);
    Version(current.stage, target, reason, current.spec, result, key)
  }

  // The owner of the end of an attempt is never refused: its key is new. Its stage ends as
  // asked, with its job.
  lemma FinishKeeps(db: Db, r: nat, job: StageControl.Job, target: Status, reason: string, result: Option<nat>, key: VersionKey)
    requires DbOk(db) && r < |db.runs| && db.runs[r].attempt < |db.attempts|
    requires Owns(db.attempts[db.runs[r].attempt], db.runs[r].pending)
    requires key == RunKey(r, target) || key == ReconcileKey(r, target)
    requires Lost(target) || (target == Done && Last(db.attempts[db.runs[r].attempt]).status == Started)
    requires LeasedOnce(job.state) ==> job.attempts >= 1
    requires job.state == Running ==> Began(db.attempts[db.runs[r].attempt], db.runs[r])
    requires job.state == Succeeded ==> target == Done && result.Some?
    ensures var a := db.runs[r].attempt;
      var e := FinishVersion(db, r, target, reason, result, key);
      FinishStage(WithJob(db, r, job), a, target, reason, result, key) == Ok(Appended(WithJob(db, r, job), a, e))
      && DbOk(Appended(WithJob(db, r, job), a, e))
      && Outcome(db.attempts[a] + [e], db.runs[r].pending) == Some(e) && e.stage == db.runs[r].stage
  {
    var v := db.attempts[db.runs[r].attempt];
    var e := FinishVersion(db, r, target, reason, result, key);
    OwnerKeyFree(db, r, key, target);
    assert RunOk(db, r) && HistoryOk(v);
    assert e.stage == db.runs[r].stage by {
      if |v| == db.runs[r].pending + 2 {
        assert EdgeOk(v[(|v| - 1) - 1], v[|v| - 1]);
      }
    }
    assert Outcome(v + [e], db.runs[r].pending) == Some(e);
    SaneGrows(v, e, db.runs[r]);
    OwnerAppends(db, r, job, e);
  }

  // ---------- The operations ----------

  lemma GrantKeeps(db: Db, w: nat, expires: int, r: nat)
    requires DbOk(db)
    ensures DbOk(Grant(db, w, expires, r))
  {
    if Grant(db, w, expires, r) != db {
      assert RunOk(db, r);
      JobChanged(db, r, db.runs[r].job.(state := Leased, owner := Some(w), expires := expires, attempts := db.runs[r].job.attempts + 1));
    }
  }

  lemma HeartbeatKeeps(db: Db, r: nat, w: nat, now: int, seconds: nat)
    requires DbOk(db)
    ensures DbOk(Kept(db, Heartbeat(db, r, w, now, seconds)))
  {
    if Heartbeat(db, r, w, now, seconds).Ok? {
      assert RunOk(db, r);
      JobChanged(db, r, db.runs[r].job.(expires := now + seconds));
    }
  }

  lemma BeginKeeps(db: Db, r: nat, w: nat, spec: nat, inputsOk: bool, now: int)
    requires DbOk(db)
    ensures DbOk(Kept(db, Begin(db, r, w, spec, inputsOk, now)))
  {
    var result := Begin(db, r, w, spec, inputsOk, now);
    if result.Ok? && result.value != db {
      var run := db.runs[r];
      assert RunOk(db, r) && HistoryOk(db.attempts[run.attempt]);
      OwnerAppends(db, r, run.job.(state := Running), Version(run.stage, Started, "stage_started", Some(spec), None, RunKey(r, Started)));
    }
  }

  lemma CompleteKeeps(db: Db, r: nat, w: nat, target: Status, reason: string, result: Option<nat>, bundleOk: bool, now: int)
    requires DbOk(db)
    ensures DbOk(KeptPair(db, Complete(db, r, w, target, reason, result, bundleOk, now)))
  {
    var answer := Complete(db, r, w, target, reason, result, bundleOk, now);
    if answer.Ok? && answer.value.0 != db {
      var run := db.runs[r];
      assert RunOk(db, r);
      FinishKeeps(db, r, Ended(run.job, JobEnd(target)), target, reason, result, RunKey(r, target));
    }
  }

  // A pending version after a stage that ended.
  lemma CallerAppends(db: Db, a: nat, e: Version)
    requires DbOk(db) && a < |db.attempts|
    requires EdgeOk(Last(db.attempts[a]), e) && e.status == Pending && e.key.CallerKey?
    ensures DbOk(Appended(db, a, e))
  {
    VersionAppended(db, a, e);
  }

  lemma AdvanceKeeps(db: Db, a: nat, key: string, inputsOk: bool)
    requires DbOk(db)
    ensures DbOk(Kept(db, AdvanceStage(db, a, key, inputsOk)))
  {
    var result := AdvanceStage(db, a, key, inputsOk);
    if result.Ok? {
      assert HistoryOk(db.attempts[a]);
      CallerAppends(db, a, Last(result.value.attempts[a]));
    }
  }

  lemma RetryKeeps(db: Db, a: nat, key: string, restored: bool)
    requires DbOk(db)
    ensures DbOk(Kept(db, RetryStage(db, a, key, restored)))
  {
    var result := RetryStage(db, a, key, restored);
    if result.Ok? {
      assert HistoryOk(db.attempts[a]);
      CallerAppends(db, a, Last(result.value.attempts[a]));
    }
  }

  lemma NewAttemptKeeps(db: Db, key: string)
    requires DbOk(db)
    ensures DbOk(Kept(db, NewAttempt(db, key)))
  {
    var next := Kept(db, NewAttempt(db, key));
    forall a, i | 0 <= a < |next.attempts| && 0 <= i < |next.attempts[a]|
      ensures StartedBy(next, a, i) && KeyOk(next, a, i)
    {
      if a < |db.attempts| {
        assert StartedBy(db, a, i) && KeyOk(db, a, i);
      }
    }
    forall r | 0 <= r < |next.runs| ensures RunOk(next, r) {
      assert RunOk(db, r);
    }
  }

  lemma ScheduleKeeps(db: Db, a: nat, spec: nat, specOk: bool, key: string, max: int)
    requires DbOk(db)
    ensures DbOk(KeptPair(db, Schedule(db, a, spec, specOk, key, max)))
  {
    var answer := Schedule(db, a, spec, specOk, key, max);
    if answer.Ok? && answer.value.0 != db {
      RunAdded(db, answer.value.0);
    }
  }

  lemma RunAdded(db: Db, next: Db)
    requires DbOk(db) && next.attempts == db.attempts && |next.runs| == |db.runs| + 1 && next.runs[..|db.runs|] == db.runs
    requires RunOk(next, |db.runs|) && NumberOk(next.runs, |db.runs|)
    requires !PendingTaken(db.runs, next.runs[|db.runs|].attempt, next.runs[|db.runs|].pending)
    requires next.runs[|db.runs|].pending == |db.attempts[next.runs[|db.runs|].attempt]| - 1
    ensures DbOk(next)
  {
    var n := |db.runs|;
    forall r | 0 <= r < n ensures next.runs[r] == db.runs[r] {
      assert next.runs[..n][r] == db.runs[r];
    }
    forall r | 0 <= r < |next.runs| ensures RunOk(next, r) && NumberOk(next.runs, r) {
      if r < n {
        assert RunOk(db, r) && NumberOk(db.runs, r);
        LastRunSame(db.runs, next.runs, db.runs[r].attempt, db.runs[r].stage, r);
      }
    }
    forall r, s | 0 <= r < |next.runs| && 0 <= s < |next.runs| && r != s ensures Apart(next.runs, r, s) {
      if r < n && s < n {
        assert Apart(db.runs, r, s);
      } else {
        assert RunOk(db, if r < n then r else s);
      }
    }
    forall a, i | 0 <= a < |db.attempts| && 0 <= i < |db.attempts[a]| ensures StartedBy(next, a, i) && KeyOk(next, a, i) {
      assert StartedBy(db, a, i) && KeyOk(db, a, i);
      if db.attempts[a][i].status == Started {
        PendingSame(db.runs, next.runs, a, i - 1);
      }
    }
  }

  lemma JobFailKeeps(db: Db, r: nat, w: nat)
    requires DbOk(db)
    ensures DbOk(Kept(db, FailLeased(db, r, w)))
  {
    if FailLeased(db, r, w).Ok? {
      assert RunOk(db, r);
      JobChanged(db, r, Ended(db.runs[r].job, Failed));
    }
  }

  lemma NextDbKeeps(db: Db, step: Step)
    requires DbOk(db)
    ensures DbOk(NextDb(db, step))
  {
    match step
    case StartAttempt(key) => NewAttemptKeeps(db, key);
    case DoSchedule(a, spec, specOk, key, max) => ScheduleKeeps(db, a, spec, specOk, key, max);
    case DoLease(w, expires, chosen) => GrantKeeps(db, w, expires, chosen);
    case DoHeartbeat(r, w, now, seconds) => HeartbeatKeeps(db, r, w, now, seconds);
    case DoBegin(r, w, spec, inputsOk, now) => BeginKeeps(db, r, w, spec, inputsOk, now);
    case DoComplete(r, w, target, reason, result, bundleOk, now) => CompleteKeeps(db, r, w, target, reason, result, bundleOk, now);
    case DoRetry(r, key) => if r < |db.runs| { RetryKeeps(db, db.runs[r].attempt, key, false); }
    case DoAdvance(a, key, inputsOk) => AdvanceKeeps(db, a, key, inputsOk);
    case DoRestore(a, key) => RetryKeeps(db, a, key, true);
    case JobFail(r, w) => JobFailKeeps(db, r, w);
    case _ =>
  }

  // ---------- What a session writes ----------

  // Of a row that was read, whatever it has become: the job that has been leased no less
  // often since may end, wait again or be asked to cancel.
  lemma RowWritten(db: Db, h: Held, step: Step)
    requires DbOk(db) && HeldOk(db, h) && (step.Expire? || step.Cancel? || step.Retry?)
    ensures DbOk(Writes(db, h, step))
  {
    assert RunOk(db, h.run);
    JobChanged(db, h.run, Writes(db, h, step).runs[h.run].job);
  }

  // A run is settled with what it was read as, exactly as the attempt's current version
  // allows: unless the job was dead, nothing is done; nor if the run's stage is the current
  // one and lost already; the run's own stage ends if it is the current one and has not
  // ended; and any other version is refused.
  lemma SettlesAs(db: Db, r: nat, state: JobState)
    requires DbOk(db) && r < |db.runs|
    ensures var v := if db.runs[r].attempt < |db.attempts| then db.attempts[db.runs[r].attempt] else [];
      v != [] &&
      var lost := Lost(Last(v).status) && Last(v).stage == db.runs[r].stage;
      SettleAs(db, r, state) ==
        if !Dead(state) || lost then Ok(db)
        else if !Owns(v, db.runs[r].pending) then Err(Conflict)
        else
          var (target, reason) := LossStatus(state).value;
          Ok(Appended(db, db.runs[r].attempt, FinishVersion(db, r, target, reason, None, ReconcileKey(r, target))))
    ensures SettleAs(db, r, state).Ok? ==> DbOk(SettleAs(db, r, state).value)
  {
    AllVerified(db, r);
    var run := db.runs[r];
    assert RunOk(db, r);
    var v := db.attempts[run.attempt];
    assert HistoryOk(v);
    if Dead(state) {
      AtTheEnd(v, run);
      if Owns(v, run.pending) {
        var (target, reason) := LossStatus(state).value;
        FinishKeeps(db, r, run.job, target, reason, None, ReconcileKey(r, target));
        assert WithJob(db, r, run.job) == db;
      }
    }
  }

  // A version that follows a pending one and has not ended is running, of the same stage.
  lemma AtTheEnd(v: seq<Version>, run: Run)
    requires HistoryOk(v) && Sane(v, run)
    ensures Owns(v, run.pending) <==>
      run.pending == |v| - 1 || (Last(v).stage == run.stage && Last(v).status == Started && run.pending == |v| - 2)
    ensures run.pending == |v| - 2 ==> Last(v).stage == run.stage
  {
    if run.pending == |v| - 2 {
      assert EdgeOk(v[(|v| - 1) - 1], v[|v| - 1]);
    }
  }

  lemma CancelRunKeeps(db: Db, h: Held)
    requires DbOk(db) && HeldOk(db, h)
    ensures DbOk(Kept(db, RequestCancel(db, h.run, h.job)))
  {
    var run := db.runs[h.run];
    AllVerified(db, h.run);
    assert RunOk(db, h.run);
    if Terminal(h.job.state) {
      SettlesAs(db, h.run, h.job.state);
    } else if h.job.state != Queued {
      JobChanged(db, h.run, Cancelling(run.job, h.job));
    } else if run.pending == |db.attempts[run.attempt]| - 1 {
      FinishKeeps(db, h.run, Cancelling(run.job, h.job), Stopped, "cancellation_requested", None, RunKey(h.run, Stopped));
    }
  }

  lemma WritesKeep(db: Db, h: Held, step: Step)
    requires DbOk(db) && HeldOk(db, h)
    ensures DbOk(Writes(db, h, step))
  {
    match step
    case CancelRun(_) => CancelRunKeeps(db, h);
    case Settle(_) => SettlesAs(db, h.run, h.job.state);
    case Expire(_, _) => RowWritten(db, h, step);
    case Cancel(_) => RowWritten(db, h, step);
    case Retry(_) => RowWritten(db, h, step);
    case _ =>
  }

  // ---------- Rows go on ----------

  // Runs are added and never change but for their jobs; no lease is ever uncounted.
  predicate RunsGo(runs: seq<Run>, more: seq<Run>) {
    |runs| <= |more| && forall r | 0 <= r < |runs| :: RunGoes(runs[r], more[r])
  }

  predicate RunGoes(a: Run, b: Run) {
    b == a.(job := b.job) && a.job.attempts <= b.job.attempts
  }

  // Versions are added and never change.
  predicate VersionsGo(attempts: seq<seq<Version>>, more: seq<seq<Version>>) {
    |attempts| <= |more| && forall a | 0 <= a < |attempts| :: attempts[a] <= more[a]
  }

  lemma NextDbGoes(db: Db, step: Step)
    ensures RunsGo(db.runs, NextDb(db, step).runs)
  {
  }

  lemma WritesGo(db: Db, h: Held, step: Step)
    ensures RunsGo(db.runs, Writes(db, h, step).runs)
  {
  }

  lemma NextDbGrows(db: Db, step: Step)
    ensures VersionsGo(db.attempts, NextDb(db, step).attempts)
  {
  }

  lemma WritesGrow(db: Db, h: Held, step: Step)
    ensures VersionsGo(db.attempts, Writes(db, h, step).attempts)
  {
  }

  lemma StepGoes(s: State, step: Step)
    ensures RunsGo(s.db.runs, Next(s, step).db.runs) && VersionsGo(s.db.attempts, Next(s, step).db.attempts)
  {
    NextDbGoes(s.db, step);
    NextDbGrows(s.db, step);
    if OfSession(step) && step.session in s.held {
      WritesGo(s.db, s.held[step.session], step);
      WritesGrow(s.db, s.held[step.session], step);
    }
  }

  lemma HeldGoes(db: Db, next: Db, h: Held)
    requires HeldOk(db, h) && RunsGo(db.runs, next.runs)
    ensures HeldOk(next, h)
  {
    assert RunGoes(db.runs[h.run], next.runs[h.run]);
  }

  lemma StepKeeps(s: State, step: Step)
    requires Inv(s)
    ensures Inv(Next(s, step))
  {
    StepGoes(s, step);
    var t := Next(s, step);
    if step.ReadRow? {
      if step.row < |s.db.runs| {
        assert RunOk(s.db, step.row);
      }
    } else if OfSession(step) {
      if step.session in s.held {
        WritesKeep(s.db, s.held[step.session], step);
      }
    } else {
      NextDbKeeps(s.db, step);
    }
    forall n | n in t.held ensures HeldOk(t.db, t.held[n]) {
      if n in s.held && t.held[n] == s.held[n] {
        HeldGoes(s.db, t.db, s.held[n]);
      }
    }
  }

  lemma {:induction false} Reachable(s: State, steps: seq<Step>)
    requires Inv(s)
    ensures Inv(After(s, steps))
    ensures RunsGo(s.db.runs, After(s, steps).db.runs) && VersionsGo(s.db.attempts, After(s, steps).db.attempts)
    decreases |steps|
  {
    if steps != [] {
      StepKeeps(s, steps[0]);
      StepGoes(s, steps[0]);
      Reachable(Next(s, steps[0]), steps[1..]);
      RunsGoOn(s.db.runs, Next(s, steps[0]).db.runs, After(s, steps).db.runs);
      VersionsGoOn(s.db.attempts, Next(s, steps[0]).db.attempts, After(s, steps).db.attempts);
    }
  }

  lemma RunsGoOn(runs: seq<Run>, mid: seq<Run>, more: seq<Run>)
    requires RunsGo(runs, mid) && RunsGo(mid, more)
    ensures RunsGo(runs, more)
  {
    forall r | 0 <= r < |runs| ensures RunGoes(runs[r], more[r]) {
      assert RunGoes(runs[r], mid[r]) && RunGoes(mid[r], more[r]);
    }
  }

  lemma VersionsGoOn(attempts: seq<seq<Version>>, mid: seq<seq<Version>>, more: seq<seq<Version>>)
    requires VersionsGo(attempts, mid) && VersionsGo(mid, more)
    ensures VersionsGo(attempts, more)
  {
    forall a | 0 <= a < |attempts| ensures attempts[a] <= more[a] {
      assert attempts[a] <= mid[a] && mid[a] <= more[a];
    }
  }

  lemma ReachableInv(steps: seq<Step>)
    ensures Inv(After(EMPTY, steps))
  {
    Reachable(EMPTY, steps);
  }
}
